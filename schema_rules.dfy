/** The small part of zod's object validation the schemas use: each failed
    check of a field adds one issue, located by its path, and parsing succeeds
    only when no issue was raised. */
module SchemaRules {
  import opened Wrappers

  /** One step of an issue path: an object key or an array index. */
  datatype Segment = Key(name: string) | At(index: nat)

  /** The built-in checks a field can fail. */
  datatype Check = TooSmall | TooBig | NotInteger | InvalidEnum | InvalidEmail

  datatype Issue =
    | FieldIssue(path: seq<Segment>, check: Check)
    | CustomIssue(path: seq<Segment>, message: string)

  /** `z.number().int()` accepts exactly the whole numbers. */
  predicate IsInt(x: real) {
    x.Floor as real == x
  }

  /** One issue when `failed`, none otherwise. */
  function Flag(failed: bool, path: seq<Segment>, check: Check): (r: seq<Issue>)
    ensures r == [] <==> !failed
    ensures failed ==> r == [FieldIssue(path, check)]
  {
    if failed then [FieldIssue(path, check)] else []
  }

  /** `z.string().min(n)`: the length is counted in characters. */
  function MinLen(path: seq<Segment>, s: string, n: nat): (r: seq<Issue>)
    ensures r == [] <==> |s| >= n
  {
    Flag(|s| < n, path, TooSmall)
  }

  /** `z.string().max(n)` */
  function MaxLen(path: seq<Segment>, s: string, n: nat): (r: seq<Issue>)
    ensures r == [] <==> |s| <= n
  {
    Flag(|s| > n, path, TooBig)
  }

  /** `z.string().min(lo).max(hi)`: both checks run, each adds its own issue. */
  function LenRange(path: seq<Segment>, s: string, lo: nat, hi: nat): (r: seq<Issue>)
    ensures r == [] <==> lo <= |s| <= hi
  {
    MinLen(path, s, lo) + MaxLen(path, s, hi)
  }

  /** `z.string().max(n).optional()`: an absent value raises nothing. */
  function OptMaxLen(path: seq<Segment>, s: Option<string>, n: nat): (r: seq<Issue>)
    ensures r == [] <==> (s.Some? ==> |s.value| <= n)
  {
    if s.Some? then MaxLen(path, s.value, n) else []
  }

  /** `z.number().min(lo)` */
  function AtLeast(path: seq<Segment>, x: real, lo: real): (r: seq<Issue>)
    ensures r == [] <==> x >= lo
  {
    Flag(x < lo, path, TooSmall)
  }

  /** `z.number().int().min(lo).max(hi)` */
  function IntRange(path: seq<Segment>, x: real, lo: real, hi: real): (r: seq<Issue>)
    ensures r == [] <==> IsInt(x) && lo <= x <= hi
  {
    Flag(!IsInt(x), path, NotInteger) + Flag(x < lo, path, TooSmall) + Flag(x > hi, path, TooBig)
  }

  /** `z.array(item)`: the issues of every element, each under its index. */
  function Each<T>(path: seq<Segment>, xs: seq<T>, item: (seq<Segment>, T) -> seq<Issue>): seq<Issue>
  {
    if xs == [] then []
    else Each(path, xs[..|xs| - 1], item) + item(path + [At(|xs| - 1)], xs[|xs| - 1])
  }

  /** An array raises no issue exactly when none of its elements does. */
  lemma {:induction false} EachEmpty<T>(path: seq<Segment>, xs: seq<T>, item: (seq<Segment>, T) -> seq<Issue>)
    ensures Each(path, xs, item) == [] <==> forall i :: 0 <= i < |xs| ==> item(path + [At(i)], xs[i]) == []
  {
    if xs != [] {
      var init := xs[..|xs| - 1];
      EachEmpty(path, init, item);
      assert forall i :: 0 <= i < |init| ==> init[i] == xs[i];
    }
  }

  /** The issues of one element appear among the issues of its array. */
  lemma {:induction false} EachContains<T>(path: seq<Segment>, xs: seq<T>, item: (seq<Segment>, T) -> seq<Issue>, i: nat, e: Issue)
    requires i < |xs| && e in item(path + [At(i)], xs[i])
    ensures e in Each(path, xs, item)
  {
    var init := xs[..|xs| - 1];
    if i < |init| {
      assert init[i] == xs[i];
      EachContains(path, init, item, i, e);
    }
  }
}
