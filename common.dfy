/** Helpers shared by the whole model: optional values, results, the
    order-preserving filter that `Array.prototype.filter` performs, and the
    ASCII string operations (`toLowerCase`, `toUpperCase`, `includes`,
    `substring(0, n)`) that the client code applies to names and titles. */
module Common {

  datatype Option<+T> = None | Some(value: T)

  datatype Result<+T, +E> = Success(value: T) | Failure(error: E)

  function Min(a: int, b: int): int { if a <= b then a else b }

  function Max(a: int, b: int): int { if a >= b then a else b }

  /** `s.filter(keep)`: the elements that satisfy `keep`, in their original order. */
  function Filter<T>(s: seq<T>, keep: T -> bool): (r: seq<T>)
    ensures |r| <= |s|
    ensures forall i :: 0 <= i < |r| ==> r[i] in s && keep(r[i])
    ensures forall i :: 0 <= i < |s| && keep(s[i]) ==> s[i] in r
    ensures multiset(r) <= multiset(s)
  {
    if s == [] then []
    else
      assert s == [s[0]] + s[1..];
      if keep(s[0]) then [s[0]] + Filter(s[1..], keep)
      else Filter(s[1..], keep)
  }

  /** The filter keeps the input's order: its result is a subsequence of the input. */
  lemma {:induction false} FilterIsSubsequence<T>(s: seq<T>, keep: T -> bool)
    ensures IsSubsequence(Filter(s, keep), s)
  {
    if s != [] {
      FilterIsSubsequence(s[1..], keep);
      if keep(s[0]) {
        assert Filter(s, keep)[1..] == Filter(s[1..], keep);
      }
    }
  }

  /** `r` can be obtained from `s` by deleting elements, without reordering. */
  ghost predicate IsSubsequence<T>(r: seq<T>, s: seq<T>)
    decreases |s|
  {
    if r == [] then true
    else if s == [] then false
    else (r[0] == s[0] && IsSubsequence(r[1..], s[1..])) || IsSubsequence(r, s[1..])
  }

  /** Every sequence is a subsequence of itself. */
  lemma {:induction false} IsSubsequenceRefl<T>(s: seq<T>)
    ensures IsSubsequence(s, s)
  {
    if s != [] {
      IsSubsequenceRefl(s[1..]);
    }
  }

  /** Filtering twice by the same predicate changes nothing: the filter is idempotent. */
  lemma {:induction false} FilterIdempotent<T>(s: seq<T>, keep: T -> bool)
    ensures Filter(Filter(s, keep), keep) == Filter(s, keep)
  {
    if s != [] {
      FilterIdempotent(s[1..], keep);
    }
  }

  /** An element is kept exactly when it occurs in the input and satisfies `keep`. */
  lemma FilterMembers<T>(s: seq<T>, keep: T -> bool)
    ensures forall x :: x in Filter(s, keep) <==> x in s && keep(x)
  {
    forall x | x in s && keep(x) ensures x in Filter(s, keep) {
      var i :| 0 <= i < |s| && s[i] == x;
    }
  }

  /** A filter that keeps every element returns the input. */
  lemma {:induction false} FilterAll<T>(s: seq<T>, keep: T -> bool)
    requires forall i :: 0 <= i < |s| ==> keep(s[i])
    ensures Filter(s, keep) == s
  {
    if s != [] {
      FilterAll(s[1..], keep);
    }
  }

  /** A filter that keeps no element returns nothing. */
  lemma {:induction false} FilterNone<T>(s: seq<T>, keep: T -> bool)
    requires forall i :: 0 <= i < |s| ==> !keep(s[i])
    ensures Filter(s, keep) == []
  {
    if s != [] {
      FilterNone(s[1..], keep);
    }
  }

  /** Two filters in a row keep what their conjunction keeps. */
  lemma {:induction false} FilterConj<T>(s: seq<T>, first: T -> bool, second: T -> bool, both: T -> bool)
    requires forall x :: both(x) == (first(x) && second(x))
    ensures Filter(Filter(s, first), second) == Filter(s, both)
  {
    if s != [] {
      FilterConj(s[1..], first, second, both);
      if first(s[0]) {
        assert Filter(s, first) == [s[0]] + Filter(s[1..], first);
        assert Filter(s, first)[1..] == Filter(s[1..], first);
      }
    }
  }

  /** Filters by predicates that agree everywhere give the same result. */
  lemma {:induction false} FilterExt<T>(s: seq<T>, keep: T -> bool, same: T -> bool)
    requires forall x :: keep(x) == same(x)
    ensures Filter(s, keep) == Filter(s, same)
  {
    if s != [] {
      FilterExt(s[1..], keep, same);
    }
  }

  /** Filtering distributes over concatenation. */
  lemma {:induction false} FilterAppend<T>(a: seq<T>, b: seq<T>, keep: T -> bool)
    ensures Filter(a + b, keep) == Filter(a, keep) + Filter(b, keep)
  {
    if a == [] {
      assert a + b == b;
    } else {
      assert (a + b)[1..] == a[1..] + b;
      FilterAppend(a[1..], b, keep);
    }
  }

  /** Applies `f` to every element in order and stops at the first failure. */
  function Collect<A, B, E>(xs: seq<A>, f: A -> Result<B, E>): (r: Result<seq<B>, E>)
    ensures r.Success? <==> forall i :: 0 <= i < |xs| ==> f(xs[i]).Success?
    ensures r.Success? ==> |r.value| == |xs| && forall i :: 0 <= i < |xs| ==> f(xs[i]) == Success(r.value[i])
    ensures r.Failure? ==>
      exists i :: 0 <= i < |xs| && f(xs[i]) == Failure(r.error) && forall j :: 0 <= j < i ==> f(xs[j]).Success?
  {
    if xs == [] then Success([])
    else
      match f(xs[0])
      case Failure(e) => Failure(e)
      case Success(y) =>
        match Collect(xs[1..], f)
        case Failure(e) =>
          assert exists i :: 0 <= i < |xs| && f(xs[i]) == Failure(e) && forall j :: 0 <= j < i ==> f(xs[j]).Success? by {
            assert forall i :: 1 <= i < |xs| ==> xs[1..][i - 1] == xs[i];
            var i :| 0 <= i < |xs[1..]| && f(xs[1..][i]) == Failure(e) && forall j :: 0 <= j < i ==> f(xs[1..][j]).Success?;
            assert f(xs[i + 1]) == Failure(e) && forall j :: 0 <= j < i + 1 ==> f(xs[j]).Success?;
          }
          Failure(e)
        case Success(ys) =>
          assert forall i :: 1 <= i < |xs| ==> xs[1..][i - 1] == xs[i];
          Success([y] + ys)
  }

  /** One more step of `Collect` over a list it has succeeded on so far. */
  lemma CollectStep<A, B, E>(xs: seq<A>, f: A -> Result<B, E>, k: nat)
    requires k < |xs| && Collect(xs[..k], f).Success?
    ensures f(xs[k]).Success? ==> Collect(xs[..k + 1], f) == Success(Collect(xs[..k], f).value + [f(xs[k]).value])
    ensures f(xs[k]).Failure? ==> Collect(xs, f) == Failure(f(xs[k]).error)
  {
    var prefix := Collect(xs[..k], f).value;
    assert forall i :: 0 <= i < k ==> f(xs[i]) == f(xs[..k][i]);
    if f(xs[k]).Success? {
      var r := Collect(xs[..k + 1], f);
      assert forall i :: 0 <= i < k + 1 ==> xs[..k + 1][i] == xs[i];
      assert r.Success?;
      assert r.value == prefix + [f(xs[k]).value];
    } else {
      var r := Collect(xs, f);
      var i :| 0 <= i < |xs| && f(xs[i]) == Failure(r.error) && forall j :: 0 <= j < i ==> f(xs[j]).Success?;
      assert i == k;
    }
  }

  /** `Collect` only looks at the values `f` gives on the list. */
  lemma {:induction false} CollectAgrees<A, B, E>(xs: seq<A>, f: A -> Result<B, E>, g: A -> Result<B, E>)
    requires forall i :: 0 <= i < |xs| ==> f(xs[i]) == g(xs[i])
    ensures Collect(xs, f) == Collect(xs, g)
  {
    if xs != [] {
      assert forall i :: 1 <= i < |xs| ==> xs[1..][i - 1] == xs[i];
      CollectAgrees(xs[1..], f, g);
    }
  }

  function LowerChar(c: char): char
  {
    if 'A' <= c <= 'Z' then (c as int + 32) as char else c
  }

  function UpperChar(c: char): char
  {
    if 'a' <= c <= 'z' then (c as int - 32) as char else c
  }

  /** ASCII `toLowerCase`. */
  function ToLower(s: string): (r: string)
    ensures |r| == |s|
    ensures forall i :: 0 <= i < |s| ==> r[i] == LowerChar(s[i])
  {
    if s == [] then [] else [LowerChar(s[0])] + ToLower(s[1..])
  }

  /** ASCII `toUpperCase`. */
  function ToUpper(s: string): (r: string)
    ensures |r| == |s|
    ensures forall i :: 0 <= i < |s| ==> r[i] == UpperChar(s[i])
  {
    if s == [] then [] else [UpperChar(s[0])] + ToUpper(s[1..])
  }

  /** `s.substring(0, n)` for n >= 0: the first n characters, or all of s if it is shorter. */
  function Prefix(s: string, n: nat): (r: string)
    ensures |r| == Min(n, |s|)
    ensures r == s[..|r|]
  {
    if |s| <= n then s else s[..n]
  }

  /** A string field that is present and non-empty, so truthy. */
  predicate Filled(s: Option<string>)
  {
    s.Some? && s.value != ""
  }

  /** The first two characters of the name, in upper case. */
  function Initials(name: string): (r: string)
    ensures |r| == Min(2, |name|)
    ensures forall i :: 0 <= i < |r| ==> r[i] == UpperChar(name[i])
  {
    ToUpper(Prefix(name, 2))
  }

  /** `t` occurs in `s` at position i. */
  predicate OccursAt(t: string, s: string, i: int)
  {
    0 <= i && i + |t| <= |s| && s[i..i + |t|] == t
  }

  /** `s.includes(t)`: some contiguous slice of `s` equals `t`; the empty string is in every string. */
  function Includes(s: string, t: string): (b: bool)
    ensures b <==> exists i :: OccursAt(t, s, i)
    decreases |s|
  {
    if |t| > |s| then false
    else if s[..|t|] == t then
      assert OccursAt(t, s, 0);
      true
    else
      var b := Includes(s[1..], t);
      if b then
        var i :| OccursAt(t, s[1..], i);
        assert s[1..][i..i + |t|] == s[i + 1..i + 1 + |t|];
        assert OccursAt(t, s, i + 1);
        true
      else
        assert forall i :: OccursAt(t, s, i) ==> OccursAt(t, s[1..], i - 1) by {
          forall i | OccursAt(t, s, i) ensures OccursAt(t, s[1..], i - 1) {
            assert s[0..|t|] == s[..|t|];
            assert i != 0;
            assert s[1..][i - 1..i - 1 + |t|] == s[i..i + |t|];
          }
        }
        false
  }

  /** `s.find(p)`: the first element satisfying `p`, if any. */
  function FindFirst<T>(s: seq<T>, p: T -> bool): (r: Option<T>)
    ensures r.None? <==> forall i :: 0 <= i < |s| ==> !p(s[i])
    ensures r.Some? ==> exists i :: 0 <= i < |s| && s[i] == r.value && p(s[i]) && forall j :: 0 <= j < i ==> !p(s[j])
  {
    if s == [] then None
    else if p(s[0]) then Some(s[0])
    else
      var r := FindFirst(s[1..], p);
      assert forall i :: 1 <= i < |s| ==> s[1..][i - 1] == s[i];
      if r.Some? then
        assert exists i :: 0 <= i < |s| && s[i] == r.value && p(s[i]) && forall j :: 0 <= j < i ==> !p(s[j]) by {
          var i :| 0 <= i < |s[1..]| && s[1..][i] == r.value && p(s[1..][i]) && forall j :: 0 <= j < i ==> !p(s[1..][j]);
          assert s[i + 1] == r.value && forall j :: 0 <= j < i + 1 ==> !p(s[j]);
        }
        r
      else r
  }
}
