/** The few JavaScript string built-ins the core relies on: the `\s` class of
    regular expressions, `trim`, `toLowerCase` (ASCII letters) and `startsWith`. */
module JsText {

  /** The characters matched by `\s` and removed by `String.prototype.trim`:
      ECMAScript's WhiteSpace and LineTerminator code points. */
  predicate IsSpace(c: char) {
    var n := c as int;
    if n < 0xA0 then n == 0x20 || 0x09 <= n <= 0x0D
    else if n < 0x2000 then n == 0xA0 || n == 0x1680
    else if n < 0x2028 then n <= 0x200A
    else n == 0x2028 || n == 0x2029 || n == 0x202F || n == 0x205F || n == 0x3000 || n == 0xFEFF
  }

  /** Drops the leading white space of `s`. */
  function TrimStart(s: string): (r: string)
    ensures |r| <= |s| && r == s[|s| - |r|..]
    ensures r == [] || !IsSpace(r[0])
    ensures AllSpace(s[..|s| - |r|])
  {
    if s != [] && IsSpace(s[0]) then
      var r := TrimStart(s[1..]);
      assert s[..|s| - |r|] == [s[0]] + s[1..][..|s| - 1 - |r|];
      r
    else s
  }

  /** Drops the trailing white space of `s`. */
  function TrimEnd(s: string): (r: string)
    ensures |r| <= |s| && r == s[..|r|]
    ensures r == [] || !IsSpace(r[|r| - 1])
    ensures AllSpace(s[|r|..])
  {
    if s != [] && IsSpace(s[|s| - 1]) then
      var r := TrimEnd(s[..|s| - 1]);
      assert s[|r|..] == s[..|s| - 1][|r|..] + [s[|s| - 1]];
      r
    else s
  }

  /** `r` is the slice of `s` starting at `a`, and only white space lies
      outside it. */
  predicate SpaceBounded(s: string, r: string, a: int) {
    && 0 <= a <= |s| - |r|
    && r == s[a..a + |r|]
    && AllSpace(s[..a]) && AllSpace(s[a + |r|..])
  }

  /** `s.trim()`: `s` without its leading and trailing white space. */
  function Trim(s: string): (r: string)
    ensures r == [] || (!IsSpace(r[0]) && !IsSpace(r[|r| - 1]))
  {
    TrimEnd(TrimStart(s))
  }

  /** `s.trim()` is the slice of `s` between its leading and trailing white
      space: this gives where it starts. */
  lemma TrimSlice(s: string) returns (a: int)
    ensures SpaceBounded(s, Trim(s), a)
  {
    var t := TrimStart(s);
    var r := TrimEnd(t);
    assert r == Trim(s);
    a := |s| - |t|;
    SuffixSlices(s, a, |r|);
    assert SpaceBounded(s, r, a);
  }

  /** Cutting the suffix `s[a..]` at `n` cuts `s` at `a + n`. */
  lemma SuffixSlices(s: string, a: int, n: int)
    requires 0 <= a <= |s| && 0 <= n <= |s| - a
    ensures s[a..][..n] == s[a..a + n] && s[a..][n..] == s[a + n..]
  {
  }

  /** A character other than white space is never trimmed away. */
  lemma TrimKeepsChar(s: string, c: char)
    requires c in s && !IsSpace(c)
    ensures c in Trim(s)
  {
    var t := TrimStart(s);
    var k :| 0 <= k < |s| && s[k] == c;
    var d := |s| - |t|;
    assert k >= d;
    assert t[k - d] == c;
    var r := TrimEnd(t);
    assert k - d < |r|;
    assert r[k - d] == c;
  }

  /** Every character of `s` is white space. */
  predicate AllSpace(s: string) {
    forall i :: 0 <= i < |s| ==> IsSpace(s[i])
  }

  /** `s.trim()` is empty exactly when `s` is nothing but white space. */
  lemma {:induction false} TrimEmptyIffAllSpace(s: string)
    ensures Trim(s) == [] <==> AllSpace(s)
  {
    var t := TrimStart(s);
    if AllSpace(s) {
      TrimStartAllSpace(s);
    } else {
      var k :| 0 <= k < |s| && !IsSpace(s[k]);
      assert |t| > 0;
      assert !IsSpace(t[0]);
    }
  }

  lemma {:induction false} TrimStartAllSpace(s: string)
    requires AllSpace(s)
    ensures TrimStart(s) == []
  {
    if s != [] {
      TrimStartAllSpace(s[1..]);
    }
  }

  /** A string with no white space at either end is its own trim. */
  lemma TrimFixed(s: string)
    requires s == [] || (!IsSpace(s[0]) && !IsSpace(s[|s| - 1]))
    ensures Trim(s) == s
  {
  }

  /** Where `s.trim()` starts in `s`, without the white space around it. */
  lemma TrimStartsAt(s: string) returns (a: int)
    ensures 0 <= a <= |s| - |Trim(s)| && Trim(s) == s[a..a + |Trim(s)|]
  {
    a := TrimSlice(s);
  }

  /** Trimming only removes characters, so a property of every character of
      `s` holds of every character of `s.trim()`. */
  lemma TrimKeepsNoCapital(s: string)
    requires NoCapital(s)
    ensures NoCapital(Trim(s))
  {
    var a := TrimStartsAt(s);
    var r := Trim(s);
    forall i | 0 <= i < |r|
      ensures !('A' <= r[i] <= 'Z')
    {
      assert r[i] == s[a + i];
    }
  }

  /** No character of `s` is an ASCII capital letter. */
  predicate NoCapital(s: string) {
    forall i :: 0 <= i < |s| ==> !('A' <= s[i] <= 'Z')
  }

  function LowerChar(c: char): char {
    if 'A' <= c <= 'Z' then (c as int + 32) as char else c
  }

  /** `s.toLowerCase()` restricted to the ASCII letters: the result has no
      capital letter, each capital becomes its small letter (32 code points
      on) and every other character stays where it was. */
  function ToLower(s: string): (r: string)
    ensures |r| == |s|
    ensures NoCapital(r)
    ensures forall i :: 0 <= i < |s| && !('A' <= s[i] <= 'Z') ==> r[i] == s[i]
    ensures forall i :: 0 <= i < |s| && 'A' <= s[i] <= 'Z' ==> r[i] as int == s[i] as int + 32
  {
    seq(|s|, i requires 0 <= i < |s| => LowerChar(s[i]))
  }

  /** `s.startsWith(prefix)` */
  predicate StartsWith(s: string, prefix: string) {
    |prefix| <= |s| && s[..|prefix|] == prefix
  }
}
