/**
 * The JavaScript Array and String methods the engine is built from:
 * find, findIndex, filter (also with a callback that may throw), map,
 * split and join. Each is defined the way JavaScript evaluates it and
 * characterised by its contract.
 */
module Arrays {
  import opened Js

  /** Number of elements of `s` that satisfy `p`. */
  function Count<T>(s: seq<T>, p: T -> bool): nat {
    if s == [] then 0 else (if p(s[0]) then 1 else 0) + Count(s[1..], p)
  }

  /** `r` is `s` with some elements deleted, order kept. */
  ghost predicate IsSubseq<T>(r: seq<T>, s: seq<T>) {
    r == [] || (s != [] && if r[0] == s[0] then IsSubseq(r[1..], s[1..]) else IsSubseq(r, s[1..]))
  }

  /** `s.findIndex(p)`. */
  function FindIndex<T>(s: seq<T>, p: T -> bool): (k: int)
    ensures -1 <= k < |s|
    ensures 0 <= k ==> p(s[k]) && forall j :: 0 <= j < k ==> !p(s[j])
    ensures k < 0 ==> forall j :: 0 <= j < |s| ==> !p(s[j])
  {
    if s == [] then -1
    else if p(s[0]) then 0
    else
      var k := FindIndex(s[1..], p);
      if k < 0 then -1 else k + 1
  }

  /** `s.find(p)`: the first element satisfying `p`, if any. */
  function Find<T>(s: seq<T>, p: T -> bool): (r: Option<T>)
    ensures r.None? <==> forall j :: 0 <= j < |s| ==> !p(s[j])
    ensures r.Some? ==> exists k :: 0 <= k < |s| && s[k] == r.value && p(s[k]) && forall j :: 0 <= j < k ==> !p(s[j])
  {
    var k := FindIndex(s, p);
    if k < 0 then None else Some(s[k])
  }

  /** `s.filter(p)`: exactly the elements satisfying `p`, in order. */
  function Filter<T>(s: seq<T>, p: T -> bool): (r: seq<T>)
    ensures |r| == Count(s, p)
    ensures forall i :: 0 <= i < |r| ==> p(r[i]) && r[i] in s
    ensures forall i :: 0 <= i < |s| && p(s[i]) ==> s[i] in r
    ensures IsSubseq(r, s)
  {
    if s == [] then []
    else if p(s[0]) then [s[0]] + Filter(s[1..], p)
    else Filter(s[1..], p)
  }

  lemma {:induction false} FilterSnoc<T>(s: seq<T>, x: T, p: T -> bool)
    ensures Filter(s + [x], p) == Filter(s, p) + (if p(x) then [x] else [])
  {
    if s != [] {
      assert (s + [x])[1..] == s[1..] + [x];
      FilterSnoc(s[1..], x, p);
    }
  }

  /** Two tests that agree on every element of `s` keep the same elements. */
  lemma {:induction false} FilterCongruent<T>(s: seq<T>, p: T -> bool, q: T -> bool)
    requires forall i :: 0 <= i < |s| ==> p(s[i]) == q(s[i])
    ensures Filter(s, p) == Filter(s, q)
  {
    if s != [] {
      assert forall i :: 0 <= i < |s[1..]| ==> s[1..][i] == s[i + 1];
      FilterCongruent(s[1..], p, q);
    }
  }

  /** `s.map(f)`. */
  function Map<T, U>(s: seq<T>, f: T -> U): (r: seq<U>) {
    seq(|s|, i requires 0 <= i < |s| => f(s[i]))
  }

  /** The test a `filter` or `find` callback that may throw passes: it
      returned `true` without throwing. */
  function Holds<T>(p: T -> Res<bool>): T -> bool {
    x => p(x) == Ok(true)
  }

  /** The test that stops a `find` whose callback may throw: it returned
      `true` or it threw. */
  function Stops<T>(p: T -> Res<bool>): T -> bool {
    x => p(x) != Ok(false)
  }

  /** `s.filter(p)` with a callback that may throw: the callback runs on
      every element, left to right, and the first throw propagates. */
  function FilterRes<T>(s: seq<T>, p: T -> Res<bool>): (r: Res<seq<T>>)
    ensures r.Ok? <==> forall i :: 0 <= i < |s| ==> p(s[i]).Ok?
    ensures r.Ok? ==> r.value == Filter(s, Holds(p))
  {
    if s == [] then Ok([])
    else
      match p(s[0])
      case TypeError => TypeError
      case Ok(b) =>
        match FilterRes(s[1..], p)
        case TypeError => TypeError
        case Ok(rest) => Ok(if b then [s[0]] + rest else rest)
  }

  /** `s.find(p)` with a callback that may throw: the search stops at the
      first element on which the callback returns `true` or throws. */
  function FindRes<T>(s: seq<T>, p: T -> Res<bool>): (r: Res<Option<T>>)
    ensures FindIndex(s, Stops(p)) < 0 ==> r == Ok(None)
    ensures 0 <= FindIndex(s, Stops(p)) ==>
              r == if p(s[FindIndex(s, Stops(p))]) == Ok(true)
                   then Ok(Some(s[FindIndex(s, Stops(p))])) else TypeError
  {
    if s == [] then Ok(None)
    else
      match p(s[0])
      case TypeError => TypeError
      case Ok(b) => if b then Ok(Some(s[0])) else FindRes(s[1..], p)
  }

  /** `xs.map(f)` with a callback that may throw: the callback runs on
      every element, left to right, and the first throw propagates. */
  function MapRes<T, U>(xs: seq<T>, f: T -> Res<U>): (r: Res<seq<U>>)
    ensures r.Ok? <==> forall i :: 0 <= i < |xs| ==> f(xs[i]).Ok?
    ensures r.Ok? ==> |r.value| == |xs| && forall i :: 0 <= i < |xs| ==> Ok(r.value[i]) == f(xs[i])
    decreases |xs|
  {
    if xs == [] then Ok([])
    else
      var init := xs[..|xs| - 1];
      assert forall i :: 0 <= i < |init| ==> init[i] == xs[i];
      match MapRes(init, f)
      case TypeError => TypeError
      case Ok(ys) =>
        match f(xs[|xs| - 1])
        case TypeError => TypeError
        case Ok(y) =>
          assert forall i :: 0 <= i < |ys| ==> (ys + [y])[i] == ys[i];
          Ok(ys + [y])
  }

  /** Once a prefix has thrown, the whole map throws. */
  lemma MapResStaysFailed<T, U>(xs: seq<T>, f: T -> Res<U>, k: nat)
    requires k <= |xs| && MapRes(xs[..k], f).TypeError?
    ensures MapRes(xs, f).TypeError?
  {
    var i :| 0 <= i < k && f(xs[..k][i]).TypeError?;
    assert xs[..k][i] == xs[i];
  }

  /** A loop that runs `f` on each element in order and stops at the first
      throw: the results before it, and whether every element succeeded. */
  function MapUntil<T, U>(xs: seq<T>, f: T -> Res<U>): (r: (seq<U>, bool))
    ensures |r.0| <= |xs|
    ensures r.1 <==> |r.0| == |xs|
    ensures forall i :: 0 <= i < |r.0| ==> f(xs[i]) == Ok(r.0[i])
    ensures !r.1 ==> f(xs[|r.0|]).TypeError?
    decreases |xs|
  {
    if xs == [] then ([], true)
    else
      var init := xs[..|xs| - 1];
      assert forall i :: 0 <= i < |init| ==> init[i] == xs[i];
      var (ys, ok) := MapUntil(init, f);
      if !ok then (ys, false)
      else
        match f(xs[|xs| - 1])
        case TypeError => (ys, false)
        case Ok(y) =>
          assert forall i :: 0 <= i < |ys| ==> (ys + [y])[i] == ys[i];
          (ys + [y], true)
  }

  /** The outcome of such a loop is pinned down by its contract. */
  lemma MapUntilUnique<T, U>(xs: seq<T>, f: T -> Res<U>, ys: seq<U>, ok: bool)
    requires |ys| <= |xs|
    requires ok <==> |ys| == |xs|
    requires forall i :: 0 <= i < |ys| ==> f(xs[i]) == Ok(ys[i])
    requires !ok ==> f(xs[|ys|]).TypeError?
    ensures MapUntil(xs, f) == (ys, ok)
  {
    var (rs, done) := MapUntil(xs, f);
    assert |rs| == |ys|;
    assert forall i :: 0 <= i < |ys| ==> Ok(rs[i]) == Ok(ys[i]);
    assert rs == ys;
  }

  /** `parts.join(sep)`. */
  function Join(parts: seq<string>, sep: char): string {
    if parts == [] then ""
    else if |parts| == 1 then parts[0]
    else parts[0] + [sep] + Join(parts[1..], sep)
  }

  /** `s.split(sep)` for a one-character separator: never empty, no part
      holds the separator, and joining the parts gives `s` back. */
  function Split(s: string, sep: char): (parts: seq<string>)
    ensures |parts| >= 1
    ensures forall i :: 0 <= i < |parts| ==> sep !in parts[i]
    ensures Join(parts, sep) == s
    ensures sep !in s ==> parts == [s]
  {
    if s == [] then [""]
    else
      var rest := Split(s[1..], sep);
      if s[0] == sep then [""] + rest
      else [[s[0]] + rest[0]] + rest[1..]
  }

  lemma {:induction false} JoinSnoc(parts: seq<string>, x: string, sep: char)
    requires parts != []
    ensures Join(parts + [x], sep) == Join(parts, sep) + [sep] + x
  {
    if |parts| > 1 {
      assert (parts + [x])[1..] == parts[1..] + [x];
      JoinSnoc(parts[1..], x, sep);
    } else {
      assert (parts + [x])[1..] == [x];
    }
  }

  /** What `split` followed by `pop` gives: the last part holds no
      separator, and the remaining parts joined, the separator and the last
      part spell the string again whenever it held a separator. */
  lemma SplitAtLast(s: string, sep: char)
    ensures var parts := Split(s, sep);
            && sep !in parts[|parts| - 1]
            && (sep in s ==> Join(parts[..|parts| - 1], sep) + [sep] + parts[|parts| - 1] == s)
            && (sep !in s ==> Join(parts[..|parts| - 1], sep) == "" && parts[|parts| - 1] == s)
  {
    var parts := Split(s, sep);
    var n := |parts|;
    if sep in s {
      assert n >= 2;
      assert parts == parts[..n - 1] + [parts[n - 1]];
      JoinSnoc(parts[..n - 1], parts[n - 1], sep);
    }
  }
}
