/** `sanitizeText` and `normalizePhone`: the transforms applied to every piece
    of free text and every phone number a guest submits. */
module Security {
  import opened Wrappers
  import opened JsText

  /** Position of the first `c` in `s`. */
  function IndexOf(s: string, c: char): (k: nat)
    requires c in s
    ensures k < |s| && s[k] == c && c !in s[..k]
  {
    if s[0] == c then 0
    else
      var k := 1 + IndexOf(s[1..], c);
      assert s[..k] == [s[0]] + s[1..][..k - 1];
      k
  }

  /** No `<` is followed, anywhere later, by a `>`: the text holds no tag. */
  predicate NoTag(s: string) {
    forall i, j :: 0 <= i < j < |s| && s[i] == '<' ==> s[j] != '>'
  }

  /** `value.replace(/<[^>]*>/g, "")`: a `<` that has a `>` somewhere after it
      is removed together with everything up to the first such `>`; a `<`
      without one is kept. */
  function StripTags(s: string): string
    decreases |s|
  {
    if s == [] then []
    else if s[0] == '<' && '>' in s[1..] then StripTags(s[1..][IndexOf(s[1..], '>') + 1..])
    else [s[0]] + StripTags(s[1..])
  }

  /** Every white-space character is a plain space and is not followed by
      another white-space character. */
  predicate SingleSpaced(s: string) {
    && (forall i :: 0 <= i < |s| && IsSpace(s[i]) ==> s[i] == ' ')
    && (forall i, j :: 0 <= i < |s| && 0 <= j < |s| && j == i + 1 ==> !(IsSpace(s[i]) && IsSpace(s[j])))
  }

  /** `value.replace(/\s+/g, " ")`: every maximal run of white space becomes
      one space. */
  function CollapseSpaces(s: string): string
    decreases |s|
  {
    if s == [] then []
    else if IsSpace(s[0]) then " " + CollapseSpaces(TrimStart(s))
    else [s[0]] + CollapseSpaces(s[1..])
  }

  /** `sanitizeText(value)` */
  function SanitizeText(value: string): string {
    Trim(CollapseSpaces(StripTags(value)))
  }

  /** The shape of every sanitized text: each white-space character is a
      single plain space between two other characters. */
  predicate WellSpaced(s: string) {
    SingleSpaced(s) && (s == [] || (!IsSpace(s[0]) && !IsSpace(s[|s| - 1])))
  }

  // ---- tags ----

  /** Tag removal only ever deletes characters. */
  lemma {:induction false} StripTagsFrom(s: string, c: char)
    requires c in StripTags(s)
    ensures c in s
    decreases |s|
  {
    if s[0] == '<' && '>' in s[1..] {
      var rest := s[1..][IndexOf(s[1..], '>') + 1..];
      StripTagsFrom(rest, c);
      var k :| 0 <= k < |rest| && rest[k] == c;
      assert s[|s| - |rest| + k] == c;
    } else if s[0] != c {
      StripTagsFrom(s[1..], c);
      var k :| 0 <= k < |s[1..]| && s[1..][k] == c;
      assert s[k + 1] == c;
    }
  }

  /** What is left after removing tags holds no `<` followed later by `>`. */
  lemma {:induction false} StripTagsNoTag(s: string)
    ensures NoTag(StripTags(s))
    decreases |s|
  {
    if s != [] {
      if s[0] == '<' && '>' in s[1..] {
        StripTagsNoTag(s[1..][IndexOf(s[1..], '>') + 1..]);
      } else {
        StripTagsNoTag(s[1..]);
        var r := StripTags(s[1..]);
        if s[0] == '<' {
          forall j | 0 <= j < |r| ensures r[j] != '>' {
            if r[j] == '>' { StripTagsFrom(s[1..], '>'); }
          }
        }
        PrependNoTag(s[0], r);
      }
    }
  }

  lemma PrependNoTag(c: char, r: string)
    requires NoTag(r) && (c == '<' ==> forall j :: 0 <= j < |r| ==> r[j] != '>')
    ensures NoTag([c] + r)
  {
    var t := [c] + r;
    forall i, j | 0 <= i < j < |t| && t[i] == '<' ensures t[j] != '>' {
      assert t[j] == r[j - 1];
      if i > 0 { assert t[i] == r[i - 1]; }
    }
  }

  lemma NoTagSlice(s: string, a: int, b: int)
    requires NoTag(s) && 0 <= a <= b <= |s|
    ensures NoTag(s[a..b])
  {
    var t := s[a..b];
    forall i, j | 0 <= i < j < |t| && t[i] == '<' ensures t[j] != '>' {
      assert t[i] == s[a + i] && t[j] == s[a + j];
    }
  }

  /** Collapsing white space only ever deletes characters or turns them into
      spaces. */
  lemma {:induction false} CollapseFrom(s: string, c: char)
    requires c in CollapseSpaces(s) && c != ' '
    ensures c in s
    decreases |s|
  {
    if IsSpace(s[0]) {
      var t := TrimStart(s);
      CollapseFrom(t, c);
      var k :| 0 <= k < |t| && t[k] == c;
      assert s[|s| - |t| + k] == c;
    } else if s[0] != c {
      CollapseFrom(s[1..], c);
      var k :| 0 <= k < |s[1..]| && s[1..][k] == c;
      assert s[k + 1] == c;
    }
  }

  lemma {:induction false} CollapseKeepsNoTag(s: string)
    requires NoTag(s)
    ensures NoTag(CollapseSpaces(s))
    decreases |s|
  {
    if s != [] {
      if IsSpace(s[0]) {
        var t := TrimStart(s);
        NoTagSlice(s, |s| - |t|, |s|);
        CollapseKeepsNoTag(t);
        PrependNoTag(' ', CollapseSpaces(t));
      } else {
        NoTagSlice(s, 1, |s|);
        CollapseKeepsNoTag(s[1..]);
        var r := CollapseSpaces(s[1..]);
        if s[0] == '<' {
          forall j | 0 <= j < |r| ensures r[j] != '>' {
            if r[j] == '>' { CollapseFrom(s[1..], '>'); }
          }
        }
        PrependNoTag(s[0], r);
      }
    }
  }

  /** Sanitized text never holds a `<` followed later by a `>`. */
  lemma SanitizedHasNoTag(value: string)
    ensures NoTag(SanitizeText(value))
  {
    var c := CollapseSpaces(StripTags(value));
    StripTagsNoTag(value);
    CollapseKeepsNoTag(StripTags(value));
    var a := TrimSlice(c);
    NoTagSlice(c, a, a + |SanitizeText(value)|);
  }

  /** Removing tags from a prefix does not reach into a tail without `>`. */
  lemma {:induction false} StripTagsKeepsTail(u: string, t: string)
    requires '>' !in t
    ensures StripTags(u + t) == StripTags(u) + t
    decreases |u|
  {
    if u == [] {
      assert u + t == t;
      StripTagsNoCloser(t);
    } else {
      var s := u + t;
      assert s[1..] == u[1..] + t;
      if u[0] == '<' && '>' in u[1..] {
        var k := IndexOf(u[1..], '>');
        IndexOfPrefix(u[1..], t, '>');
        assert s[1..][k + 1..] == u[1..][k + 1..] + t;
        StripTagsKeepsTail(u[1..][k + 1..], t);
      } else {
        assert '>' in u[1..] + t ==> '>' in u[1..] by {
          if '>' in u[1..] + t {
            var j :| 0 <= j < |u[1..] + t| && (u[1..] + t)[j] == '>';
            assert j < |u[1..]|;
            assert u[1..][j] == '>';
          }
        }
        StripTagsKeepsTail(u[1..], t);
      }
    }
  }

  lemma IndexOfPrefix(u: string, t: string, c: char)
    requires c in u
    ensures c in u + t && IndexOf(u + t, c) == IndexOf(u, c)
  {
    var k := IndexOf(u, c);
    var s := u + t;
    assert s[k] == c;
    assert s[..k] == u[..k];
  }

  lemma {:induction false} StripTagsNoCloser(t: string)
    requires '>' !in t
    ensures StripTags(t) == t
  {
    if t != [] {
      StripTagsNoCloser(t[1..]);
    }
  }

  lemma {:induction false} CollapseKeepsChar(s: string, c: char)
    requires !IsSpace(c) && c in s
    ensures c in CollapseSpaces(s)
    decreases |s|
  {
    if s[0] != c {
      var k :| 0 <= k < |s| && s[k] == c;
      if IsSpace(s[0]) {
        var t := TrimStart(s);
        assert k >= |s| - |t|;
        assert t[k - (|s| - |t|)] == c;
        CollapseKeepsChar(t, c);
      } else {
        assert s[1..][k - 1] == c;
        CollapseKeepsChar(s[1..], c);
      }
    }
  }

  /** A `<` with no `>` anywhere after it survives tag removal. */
  lemma UnmatchedOpenerSurvivesStrip(value: string, i: int)
    requires 0 <= i < |value| && value[i] == '<' && '>' !in value[i + 1..]
    ensures '<' in StripTags(value)
  {
    var head, tail := value[..i], value[i..];
    assert '>' !in tail by {
      assert tail == [value[i]] + value[i + 1..];
    }
    assert value == head + tail;
    StripTagsKeepsTail(head, tail);
    assert StripTags(value) == StripTags(head) + tail;
    assert (StripTags(head) + tail)[|StripTags(head)|] == tail[0];
  }

  /** A `<` with no `>` anywhere after it survives sanitizing. */
  lemma UnmatchedOpenerSurvives(value: string, i: int)
    requires 0 <= i < |value| && value[i] == '<' && '>' !in value[i + 1..]
    ensures '<' in SanitizeText(value)
  {
    UnmatchedOpenerSurvivesStrip(value, i);
    CollapseKeepsChar(StripTags(value), '<');
    TrimKeepsChar(CollapseSpaces(StripTags(value)), '<');
  }

  // ---- white space ----

  /** Collapsed text is single-spaced, and starts with a space exactly when
      the input starts with white space. */
  lemma {:induction false} CollapseSingleSpaced(s: string)
    ensures SingleSpaced(CollapseSpaces(s))
    ensures s != [] && !IsSpace(s[0]) ==> CollapseSpaces(s) != [] && CollapseSpaces(s)[0] == s[0]
    ensures s != [] && IsSpace(s[0]) ==> CollapseSpaces(s) != [] && CollapseSpaces(s)[0] == ' '
    decreases |s|
  {
    if s != [] {
      var t := if IsSpace(s[0]) then TrimStart(s) else s[1..];
      CollapseSingleSpaced(t);
      var r := CollapseSpaces(t);
      var c := if IsSpace(s[0]) then ' ' else s[0];
      assert CollapseSpaces(s) == [c] + r;
      assert IsSpace(s[0]) ==> r == [] || !IsSpace(r[0]);
      PrependSingleSpaced(c, r);
    }
  }

  lemma PrependSingleSpaced(c: char, r: string)
    requires SingleSpaced(r) && (IsSpace(c) ==> c == ' ' && (r == [] || !IsSpace(r[0])))
    ensures SingleSpaced([c] + r)
  {
    var t := [c] + r;
    forall i | 0 <= i < |t| ensures t[i] == if i == 0 then c else r[i - 1] { }
  }

  lemma SingleSpacedSlice(s: string, a: int, b: int)
    requires SingleSpaced(s) && 0 <= a <= b <= |s|
    ensures SingleSpaced(s[a..b])
  {
    var t := s[a..b];
    forall i | 0 <= i < |t| ensures t[i] == s[a + i] { }
  }

  /** Trimming single-spaced text leaves no white space at either end. */
  lemma TrimWellSpaced(s: string)
    requires SingleSpaced(s)
    ensures WellSpaced(Trim(s))
  {
    var r := Trim(s);
    var a := TrimStartsAt(s);
    SingleSpacedSlice(s, a, a + |r|);
    assert SingleSpaced(r);
  }

  /** In sanitized text every white-space run is one plain space, with none
      at either end. */
  lemma SanitizedIsWellSpaced(value: string)
    ensures WellSpaced(SanitizeText(value))
  {
    CollapseSingleSpaced(StripTags(value));
    TrimWellSpaced(CollapseSpaces(StripTags(value)));
  }

  // ---- idempotence ----

  lemma {:induction false} StripTagsFixed(s: string)
    requires NoTag(s)
    ensures StripTags(s) == s
  {
    if s != [] {
      if s[0] == '<' {
        assert '>' !in s[1..] by {
          forall j | 0 <= j < |s[1..]| ensures s[1..][j] != '>' { assert s[1..][j] == s[j + 1]; }
        }
      }
      NoTagSlice(s, 1, |s|);
      StripTagsFixed(s[1..]);
    }
  }

  /** In single-spaced text a white-space character is a lone blank. */
  lemma SingleSpaceRun(s: string)
    requires SingleSpaced(s) && s != [] && IsSpace(s[0])
    ensures s[0] == ' ' && TrimStart(s) == s[1..]
  {
    var rest := s[1..];
    if rest != [] {
      assert !(IsSpace(s[0]) && IsSpace(s[1]));
      assert !IsSpace(rest[0]);
    }
    assert TrimStart(rest) == rest;
  }

  lemma {:induction false} CollapseFixed(s: string)
    requires SingleSpaced(s)
    ensures CollapseSpaces(s) == s
    decreases |s|
  {
    if s != [] {
      SingleSpacedSlice(s, 1, |s|);
      CollapseFixed(s[1..]);
      if IsSpace(s[0]) {
        SingleSpaceRun(s);
      }
      assert s == [s[0]] + s[1..];
    }
  }

  /** Sanitizing sanitized text changes nothing. */
  lemma SanitizeIdempotent(value: string)
    ensures SanitizeText(SanitizeText(value)) == SanitizeText(value)
  {
    var r := SanitizeText(value);
    SanitizedHasNoTag(value);
    SanitizedIsWellSpaced(value);
    StripTagsFixed(r);
    CollapseFixed(r);
    TrimFixed(r);
  }

  // ---- phone numbers ----

  /** The characters `[\d+]` keeps: ASCII digits and `+`. */
  predicate IsPhoneChar(c: char) {
    '0' <= c <= '9' || c == '+'
  }

  /** `value.replace(/[^\d+]/g, "")` */
  function KeepPhoneChars(s: string): string {
    if s == [] then []
    else (if IsPhoneChar(s[0]) then [s[0]] else []) + KeepPhoneChars(s[1..])
  }

  /** Only digits and `+` are kept, and each of them as often as it occurs. */
  lemma {:induction false} KeepPhoneCharsExact(s: string)
    ensures forall i :: 0 <= i < |KeepPhoneChars(s)| ==> IsPhoneChar(KeepPhoneChars(s)[i])
    ensures forall c :: IsPhoneChar(c) ==> multiset(KeepPhoneChars(s))[c] == multiset(s)[c]
  {
    if s != [] {
      KeepPhoneCharsExact(s[1..]);
      assert s == [s[0]] + s[1..];
    }
  }

  /** The kept characters stay in their original order. */
  lemma KeepPhoneCharsCons(c: char, s: string)
    ensures KeepPhoneChars([c] + s) == (if IsPhoneChar(c) then [c] else []) + KeepPhoneChars(s)
  {
    assert ([c] + s)[0] == c && ([c] + s)[1..] == s;
  }

  lemma {:induction false} KeepPhoneCharsAppend(a: string, b: string)
    ensures KeepPhoneChars(a + b) == KeepPhoneChars(a) + KeepPhoneChars(b)
  {
    if a == [] {
      assert a + b == b;
    } else {
      var c, rest := a[0], a[1..];
      var h: string := if IsPhoneChar(c) then [c] else [];
      assert a == [c] + rest;
      assert a + b == [c] + (rest + b);
      KeepPhoneCharsCons(c, rest + b);
      KeepPhoneCharsCons(c, rest);
      KeepPhoneCharsAppend(rest, b);
      var kr, kb := KeepPhoneChars(rest), KeepPhoneChars(b);
      assert h + (kr + kb) == (h + kr) + kb;
    }
  }

  /** `normalizePhone(value)` */
  function NormalizePhone(value: Option<string>): (r: Option<string>)
    ensures value.None? || value.value == "" ==> r.None?
    ensures r.Some? ==> r.value != [] && r.value == KeepPhoneChars(value.value)
    ensures value.Some? && r.None? ==> KeepPhoneChars(value.value) == []
  {
    if value.None? || value.value == "" then None
    else
      var digits := KeepPhoneChars(value.value);
      if |digits| > 0 then Some(digits) else None
  }
}
