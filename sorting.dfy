/** Sorting by a JavaScript-style comparator: `cmp(a, b) < 0` means that `a`
    must come before `b`, `cmp(a, b) > 0` that it must come after, and 0 that
    the two tie and keep their input order.

    `SortBy` is a stable insertion sort that takes the input from left to
    right and puts each new element in front of the first already-placed
    element it must precede. For a consistent comparator every stable sort
    gives this same result, so it stands for Python's `sorted` and for the
    client's sorts, whose comparators are consistent.

    `EngineSort` is what V8's `Array.prototype.sort` does with fewer than 64
    elements: it finds the run at the front (reversing it when it strictly
    descends) and binary-inserts the remaining elements one by one. It stands
    for the server's sorts, one of whose comparators is inconsistent, so that
    the result depends on the algorithm. */
module Sorting {

  function Insert<T>(s: seq<T>, x: T, cmp: (T, T) -> real): (r: seq<T>)
    ensures |r| == |s| + 1
    ensures multiset(r) == multiset(s) + multiset{x}
  {
    if s == [] then [x]
    else if cmp(x, s[0]) < 0.0 then [x] + s
    else
      assert s == [s[0]] + s[1..];
      [s[0]] + Insert(s[1..], x, cmp)
  }

  function SortBy<T>(s: seq<T>, cmp: (T, T) -> real): (r: seq<T>)
    ensures |r| == |s|
    ensures multiset(r) == multiset(s)
  {
    if s == [] then []
    else
      assert s == s[..|s| - 1] + [s[|s| - 1]];
      Insert(SortBy(s[..|s| - 1], cmp), s[|s| - 1], cmp)
  }

  /** No element must come before one placed earlier. */
  ghost predicate SortedBy<T>(r: seq<T>, cmp: (T, T) -> real)
  {
    forall i, j :: 0 <= i < j < |r| ==> cmp(r[j], r[i]) >= 0.0
  }

  /** `cmp` behaves as a total preorder on the elements of `pool`: "must come
      before" is asymmetric and "need not come before" is transitive. */
  ghost predicate ConsistentOn<T>(pool: seq<T>, cmp: (T, T) -> real)
  {
    && (forall a, b :: a in pool && b in pool && cmp(a, b) < 0.0 ==> cmp(b, a) > 0.0)
    && (forall a, b, c :: a in pool && b in pool && c in pool && cmp(a, b) >= 0.0 && cmp(b, c) >= 0.0 ==> cmp(a, c) >= 0.0)
  }

  lemma {:induction false} InsertKeepsSorted<T>(r: seq<T>, x: T, cmp: (T, T) -> real, pool: seq<T>)
    requires SortedBy(r, cmp)
    requires ConsistentOn(pool, cmp)
    requires x in pool && forall y :: y in r ==> y in pool
    ensures SortedBy(Insert(r, x, cmp), cmp)
  {
    if r == [] {
    } else if cmp(x, r[0]) < 0.0 {
      InsertInFront(r, x, cmp, pool);
    } else {
      assert forall y :: y in r[1..] ==> y in r;
      InsertKeepsSorted(r[1..], x, cmp, pool);
      InsertBehind(r, x, cmp, pool, Insert(r[1..], x, cmp));
    }
  }

  /** An element that must precede the head of a sorted list may go in front of it. */
  lemma InsertInFront<T>(r: seq<T>, x: T, cmp: (T, T) -> real, pool: seq<T>)
    requires r != [] && SortedBy(r, cmp) && cmp(x, r[0]) < 0.0
    requires ConsistentOn(pool, cmp)
    requires x in pool && forall y :: y in r ==> y in pool
    ensures SortedBy([x] + r, cmp)
  {
    var out := [x] + r;
    forall i, j | 0 <= i < j < |out| ensures cmp(out[j], out[i]) >= 0.0 {
      if i == 0 {
        assert r[0] in pool && r[j - 1] in pool;
        assert cmp(r[0], x) > 0.0;
        if j > 1 {
          assert cmp(r[j - 1], r[0]) >= 0.0;
        }
      } else {
        assert out[i] == r[i - 1] && out[j] == r[j - 1];
      }
    }
  }

  /** The head of a sorted list stays in front of a sorted rest that holds
      the tail and an element that need not precede the head. */
  lemma InsertBehind<T>(r: seq<T>, x: T, cmp: (T, T) -> real, pool: seq<T>, rest: seq<T>)
    requires r != [] && SortedBy(r, cmp) && cmp(x, r[0]) >= 0.0
    requires SortedBy(rest, cmp) && multiset(rest) == multiset(r[1..]) + multiset{x}
    ensures SortedBy([r[0]] + rest, cmp)
  {
    var out := [r[0]] + rest;
    forall i, j | 0 <= i < j < |out| ensures cmp(out[j], out[i]) >= 0.0 {
      if i == 0 {
        var e := rest[j - 1];
        assert e in multiset(rest);
        if e != x {
          assert e in multiset(r[1..]);
          var k :| 0 <= k < |r[1..]| && r[1..][k] == e;
          assert r[k + 1] == e;
        }
      } else {
        assert out[i] == rest[i - 1] && out[j] == rest[j - 1];
      }
    }
  }

  /** Sorting by a consistent comparator yields a sorted permutation. */
  lemma {:induction false} SortByIsSorted<T>(s: seq<T>, cmp: (T, T) -> real)
    requires ConsistentOn(s, cmp)
    ensures SortedBy(SortBy(s, cmp), cmp)
  {
    if s != [] {
      var init := s[..|s| - 1];
      assert forall y :: y in init ==> y in s;
      SortByIsSorted(init, cmp);
      var sorted := SortBy(init, cmp);
      forall y | y in sorted ensures y in s {
        assert y in multiset(sorted);
      }
      InsertKeepsSorted(sorted, s[|s| - 1], cmp, s);
    }
  }

  /** An element that no placed element must follow goes to the end. */
  lemma {:induction false} InsertAtEnd<T>(r: seq<T>, x: T, cmp: (T, T) -> real)
    requires forall y :: y in r ==> cmp(x, y) >= 0.0
    ensures Insert(r, x, cmp) == r + [x]
  {
    if r != [] {
      var rest := r[1..];
      assert r == [r[0]] + rest;
      assert cmp(x, r[0]) >= 0.0;
      assert forall y :: y in rest ==> y in r;
      InsertAtEnd(rest, x, cmp);
      calc {
        Insert(r, x, cmp);
        [r[0]] + Insert(rest, x, cmp);
        [r[0]] + (rest + [x]);
        r + [x];
      }
    }
  }

  /** Stability on a sorted input: a list already in order comes back
      unchanged, ties included. */
  lemma {:induction false} SortByKeepsSorted<T>(s: seq<T>, cmp: (T, T) -> real)
    requires SortedBy(s, cmp)
    ensures SortBy(s, cmp) == s
  {
    if s != [] {
      var init, last := s[..|s| - 1], s[|s| - 1];
      assert s == init + [last];
      SplitSorted(init, last, cmp);
      SortByKeepsSorted(init, cmp);
      InsertAtEnd(init, last, cmp);
      calc {
        SortBy(s, cmp);
        Insert(SortBy(init, cmp), last, cmp);
        Insert(init, last, cmp);
        init + [last];
        s;
      }
    }
  }

  /** Neither of x and y must precede the other: they tie. */
  predicate Tied<T>(cmp: (T, T) -> real, x: T, y: T)
  {
    cmp(x, y) >= 0.0 && cmp(y, x) >= 0.0
  }

  /** The elements that tie with x, in the order of s. */
  function Ties<T>(s: seq<T>, cmp: (T, T) -> real, x: T): seq<T>
  {
    if s == [] then []
    else if Tied(cmp, x, s[0]) then [s[0]] + Ties(s[1..], cmp, x)
    else Ties(s[1..], cmp, x)
  }

  /** The ties of a concatenation are the ties of each part, in turn. */
  lemma {:induction false} TiesAppend<T>(a: seq<T>, b: seq<T>, cmp: (T, T) -> real, x: T)
    ensures Ties(a + b, cmp, x) == Ties(a, cmp, x) + Ties(b, cmp, x)
  {
    if a == [] {
      assert a + b == b;
    } else {
      assert (a + b)[0] == a[0] && (a + b)[1..] == a[1..] + b;
      TiesAppend(a[1..], b, cmp, x);
    }
  }

  /** A list none of whose elements ties with x has no ties. */
  lemma {:induction false} TiesNone<T>(s: seq<T>, cmp: (T, T) -> real, x: T)
    requires forall i :: 0 <= i < |s| ==> !Tied(cmp, x, s[i])
    ensures Ties(s, cmp, x) == []
  {
    if s != [] {
      TiesNone(s[1..], cmp, x);
    }
  }

  /** Stability: with a consistent comparator, the elements that tie with
      any one element come out of the sort in their input order. */
  lemma SortByStable<T>(s: seq<T>, cmp: (T, T) -> real, x: T)
    requires ConsistentOn(s, cmp) && x in s
    ensures Ties(SortBy(s, cmp), cmp, x) == Ties(s, cmp, x)
  {
    SortByTies(s, cmp, x, s);
  }

  /** Stability, by induction on the list, for any part of a list on which
      the comparator is consistent. */
  lemma {:induction false} SortByTies<T>(s: seq<T>, cmp: (T, T) -> real, x: T, pool: seq<T>)
    requires ConsistentOn(pool, cmp) && x in pool && forall z :: z in s ==> z in pool
    ensures Ties(SortBy(s, cmp), cmp, x) == Ties(s, cmp, x)
  {
    if s != [] {
      var init, last := s[..|s| - 1], s[|s| - 1];
      assert s == init + [last];
      assert forall z :: z in init ==> z in s;
      SortByTies(init, cmp, x, pool);
      SortedPasses(init, last, cmp, x, pool);
      TiesStep(init, last, cmp, x);
    }
  }

  /** One step of the sort keeps the ties in order when the new last element
      passes the ties already placed. */
  lemma TiesStep<T>(init: seq<T>, last: T, cmp: (T, T) -> real, x: T)
    requires Ties(SortBy(init, cmp), cmp, x) == Ties(init, cmp, x)
    requires Tied(cmp, x, last) ==> PassesTies(SortBy(init, cmp), last, cmp, x)
    ensures Ties(SortBy(init + [last], cmp), cmp, x) == Ties(init + [last], cmp, x)
  {
    var s := init + [last];
    assert s[..|s| - 1] == init && s[|s| - 1] == last;
    var sorted := SortBy(init, cmp);
    InsertTies(sorted, last, cmp, x);
    calc {
      Ties(SortBy(s, cmp), cmp, x);
      Ties(Insert(sorted, last, cmp), cmp, x);
      Ties(sorted, cmp, x) + (if Tied(cmp, x, last) then [last] else []);
      Ties(init, cmp, x) + Ties([last], cmp, x);
      { TiesAppend(init, [last], cmp, x); }
      Ties(s, cmp, x);
    }
  }

  /** y need not precede any element up to the last one that ties with x. */
  ghost predicate PassesTies<T>(r: seq<T>, y: T, cmp: (T, T) -> real, x: T)
  {
    forall i, k :: 0 <= k <= i < |r| && Tied(cmp, x, r[i]) ==> cmp(y, r[k]) >= 0.0
  }

  /** An element that ties with x passes the ties of a sorted list. */
  lemma SortedPasses<T>(init: seq<T>, y: T, cmp: (T, T) -> real, x: T, pool: seq<T>)
    requires ConsistentOn(pool, cmp) && x in pool && y in pool && forall z :: z in init ==> z in pool
    ensures Tied(cmp, x, y) ==> PassesTies(SortBy(init, cmp), y, cmp, x)
  {
    var r := SortBy(init, cmp);
    ConsistentOnPart(pool, init, cmp);
    SortByIsSorted(init, cmp);
    forall z | z in r ensures z in pool {
      assert z in multiset(r);
    }
    if Tied(cmp, x, y) {
      SortedPassesTies(r, y, cmp, x, pool);
    }
  }

  lemma SortedPassesTies<T>(r: seq<T>, y: T, cmp: (T, T) -> real, x: T, pool: seq<T>)
    requires SortedBy(r, cmp) && ConsistentOn(pool, cmp)
    requires x in pool && y in pool && forall z :: z in r ==> z in pool
    requires Tied(cmp, x, y)
    ensures PassesTies(r, y, cmp, x)
  {
    forall i, k | 0 <= k <= i < |r| && Tied(cmp, x, r[i]) ensures cmp(y, r[k]) >= 0.0 {
      assert r[i] in pool && r[k] in pool;
      PassOne(y, x, r[i], r[k], cmp, pool);
    }
  }

  /** y ties with x and x with t, so y need not precede t, nor anything t
      need not precede. */
  lemma PassOne<T>(y: T, x: T, t: T, u: T, cmp: (T, T) -> real, pool: seq<T>)
    requires ConsistentOn(pool, cmp) && y in pool && x in pool && t in pool && u in pool
    requires Tied(cmp, x, y) && Tied(cmp, x, t) && (t == u || cmp(t, u) >= 0.0)
    ensures cmp(y, u) >= 0.0
  {
    assert cmp(y, x) >= 0.0 && cmp(x, t) >= 0.0;
    assert cmp(y, t) >= 0.0;
  }

  /** A comparator consistent on a list is consistent on any of its parts. */
  lemma ConsistentOnPart<T>(pool: seq<T>, part: seq<T>, cmp: (T, T) -> real)
    requires ConsistentOn(pool, cmp) && forall z :: z in part ==> z in pool
    ensures ConsistentOn(part, cmp)
  {
  }

  /** Inserting y puts it after every element that ties with x, when y ties
      with x and need not precede them. */
  lemma {:induction false} InsertTies<T>(r: seq<T>, y: T, cmp: (T, T) -> real, x: T)
    requires Tied(cmp, x, y) ==> PassesTies(r, y, cmp, x)
    ensures Ties(Insert(r, y, cmp), cmp, x)
      == Ties(r, cmp, x) + (if Tied(cmp, x, y) then [y] else [])
  {
    if r == [] {
    } else if cmp(y, r[0]) < 0.0 {
      InsertTiesFront(r, y, cmp, x);
    } else {
      PassesTiesTail(r, y, cmp, x);
      var rest := r[1..];
      InsertTies(rest, y, cmp, x);
      InsertBehindHead(r, y, cmp);
      TiesCons(r[0], Insert(rest, y, cmp), rest, cmp, x, if Tied(cmp, x, y) then [y] else []);
    }
  }

  /** y goes in front: nothing after it may tie with x when y does. */
  lemma InsertTiesFront<T>(r: seq<T>, y: T, cmp: (T, T) -> real, x: T)
    requires r != [] && cmp(y, r[0]) < 0.0
    requires Tied(cmp, x, y) ==> PassesTies(r, y, cmp, x)
    ensures Ties(Insert(r, y, cmp), cmp, x)
      == Ties(r, cmp, x) + (if Tied(cmp, x, y) then [y] else [])
  {
    if Tied(cmp, x, y) {
      forall i | 0 <= i < |r| ensures !Tied(cmp, x, r[i]) {
        assert 0 <= 0 <= i;
      }
      TiesNone(r, cmp, x);
    }
    calc {
      Ties(Insert(r, y, cmp), cmp, x);
      Ties([y] + r, cmp, x);
      { TiesAppend([y], r, cmp, x); }
      Ties([y], cmp, x) + Ties(r, cmp, x);
      Ties(r, cmp, x) + (if Tied(cmp, x, y) then [y] else []);
    }
  }

  /** Passing the ties of r, y passes those of its tail. */
  lemma PassesTiesTail<T>(r: seq<T>, y: T, cmp: (T, T) -> real, x: T)
    requires r != []
    requires Tied(cmp, x, y) ==> PassesTies(r, y, cmp, x)
    ensures Tied(cmp, x, y) ==> PassesTies(r[1..], y, cmp, x)
  {
    var rest := r[1..];
    if Tied(cmp, x, y) {
      forall i, k | 0 <= k <= i < |rest| && Tied(cmp, x, rest[i]) ensures cmp(y, rest[k]) >= 0.0 {
        assert rest[i] == r[i + 1] && rest[k] == r[k + 1];
      }
    }
  }

  /** y goes behind the head of r when it need not precede it. */
  lemma InsertBehindHead<T>(r: seq<T>, y: T, cmp: (T, T) -> real)
    requires r != [] && cmp(y, r[0]) >= 0.0
    ensures Insert(r, y, cmp) == [r[0]] + Insert(r[1..], y, cmp)
    ensures r == [r[0]] + r[1..]
  {
  }

  /** Putting the same head in front of two lists whose ties differ by a
      suffix keeps that difference. */
  lemma TiesCons<T>(h: T, s: seq<T>, u: seq<T>, cmp: (T, T) -> real, x: T, extra: seq<T>)
    requires Ties(s, cmp, x) == Ties(u, cmp, x) + extra
    ensures Ties([h] + s, cmp, x) == Ties([h] + u, cmp, x) + extra
  {
    TiesAppend([h], s, cmp, x);
    TiesAppend([h], u, cmp, x);
    ConcatAssoc(Ties([h], cmp, x), Ties(u, cmp, x), extra);
  }

  /** Concatenation is associative. */
  lemma ConcatAssoc<T>(a: seq<T>, b: seq<T>, c: seq<T>)
    ensures a + (b + c) == (a + b) + c
  {
  }

  /** Without its last element a sorted list stays sorted, and that element
      need not precede any earlier one. */
  lemma SplitSorted<T>(init: seq<T>, last: T, cmp: (T, T) -> real)
    requires SortedBy(init + [last], cmp)
    ensures SortedBy(init, cmp)
    ensures forall y :: y in init ==> cmp(last, y) >= 0.0
  {
    var s := init + [last];
    assert forall i :: 0 <= i < |init| ==> s[i] == init[i];
    forall y | y in init ensures cmp(last, y) >= 0.0 {
      var i :| 0 <= i < |init| && init[i] == y;
      assert s[i] == y && s[|init|] == last;
    }
  }

  /** A prefix of a sorted list is sorted. */
  lemma SortedPrefix<T>(r: seq<T>, cmp: (T, T) -> real, k: nat)
    requires SortedBy(r, cmp) && k <= |r|
    ensures SortedBy(r[..k], cmp)
  {
    var p := r[..k];
    forall i, j | 0 <= i < j < |p| ensures cmp(p[j], p[i]) >= 0.0 {
      assert p[i] == r[i] && p[j] == r[j];
    }
  }

  /** The top of a sorted list: every element left out of the first k
      follows every kept one. */
  lemma TopOfSorted<T>(sorted: seq<T>, cmp: (T, T) -> real, k: nat)
    requires SortedBy(sorted, cmp) && k <= |sorted|
    ensures forall x, y :: x in sorted[..k] && y in multiset(sorted) - multiset(sorted[..k]) ==> cmp(y, x) >= 0.0
  {
    assert sorted == sorted[..k] + sorted[k..];
    forall x, y | x in sorted[..k] && y in multiset(sorted) - multiset(sorted[..k]) ensures cmp(y, x) >= 0.0 {
      assert y in multiset(sorted[k..]);
      var i :| 0 <= i < k && sorted[i] == x;
      var j :| 0 <= j < |sorted[k..]| && sorted[k..][j] == y;
      assert sorted[k + j] == y;
    }
  }

  /** The first k of a sorted permutation of s: k elements drawn from s, in
      order, and none left out must precede one kept. */
  lemma TopOfSortedPermutation<T>(sorted: seq<T>, s: seq<T>, cmp: (T, T) -> real, k: nat)
    requires SortedBy(sorted, cmp) && multiset(sorted) == multiset(s) && k <= |sorted|
    ensures var out := sorted[..k];
      && |out| == k
      && multiset(out) <= multiset(s)
      && SortedBy(out, cmp)
      && forall x, y :: x in out && y in multiset(s) - multiset(out) ==> cmp(y, x) >= 0.0
  {
    assert sorted == sorted[..k] + sorted[k..];
    SortedPrefix(sorted, cmp, k);
    TopOfSorted(sorted, cmp, k);
  }

  /** The first k of a sort by a consistent comparator. */
  lemma SortedTop<T>(s: seq<T>, cmp: (T, T) -> real, k: nat)
    requires ConsistentOn(s, cmp) && k <= |s|
    ensures var out := SortBy(s, cmp)[..k];
      && |out| == k
      && multiset(out) <= multiset(s)
      && SortedBy(out, cmp)
      && forall x, y :: x in out && y in multiset(s) - multiset(out) ==> cmp(y, x) >= 0.0
  {
    SortByIsSorted(s, cmp);
    TopOfSortedPermutation(SortBy(s, cmp), s, cmp, k);
  }

  // V8's sort for fewer than 64 elements

  /** Where the run at the front ends, scanning from index i: a descending run
      goes on while each element must precede the one before it, an ascending
      run while none must. */
  function RunEnd<T>(s: seq<T>, cmp: (T, T) -> real, descending: bool, i: nat): (n: nat)
    requires 1 <= i <= |s|
    ensures i <= n <= |s|
    ensures forall k :: i <= k < n ==> (cmp(s[k], s[k - 1]) < 0.0 <==> descending)
    decreases |s| - i
  {
    if i == |s| || (cmp(s[i], s[i - 1]) < 0.0) != descending then i
    else RunEnd(s, cmp, descending, i + 1)
  }

  function Reverse<T>(s: seq<T>): (r: seq<T>)
    ensures |r| == |s|
    ensures forall k :: 0 <= k < |s| ==> r[k] == s[|s| - 1 - k]
    ensures multiset(r) == multiset(s)
  {
    if s == [] then []
    else
      assert s == [s[0]] + s[1..];
      Reverse(s[1..]) + [s[0]]
  }

  /** `left + ((right - left) >> 1)`. */
  function Midpoint(left: nat, right: nat): (mid: nat)
    requires left < right
    ensures left <= mid < right
  {
    left + (right - left) / 2
  }

  /** The binary search of V8's insertion step over s[left..right): halve the
      interval, going left when x must precede the middle element. Whatever
      the comparator answers, the search stops right after an element x need
      not precede and right before one it must precede. */
  function Search<T>(s: seq<T>, x: T, cmp: (T, T) -> real, left: nat, right: nat): (pos: nat)
    requires left <= right <= |s|
    requires NotBefore(s, x, cmp, left) && Before(s, x, cmp, right)
    ensures left <= pos <= right
    ensures NotBefore(s, x, cmp, pos) && Before(s, x, cmp, pos)
    decreases right - left
  {
    if left == right then left
    else
      var mid := Midpoint(left, right);
      if cmp(x, s[mid]) < 0.0 then Search(s, x, cmp, left, mid)
      else Search(s, x, cmp, mid + 1, right)
  }

  /** x need not precede the element just before position pos. */
  predicate NotBefore<T>(s: seq<T>, x: T, cmp: (T, T) -> real, pos: nat)
  {
    pos == 0 || (pos <= |s| && cmp(x, s[pos - 1]) >= 0.0)
  }

  /** x must precede the element at position pos, if any. */
  predicate Before<T>(s: seq<T>, x: T, cmp: (T, T) -> real, pos: nat)
  {
    pos >= |s| || cmp(x, s[pos]) < 0.0
  }

  function InsertAt<T>(s: seq<T>, pos: nat, x: T): (r: seq<T>)
    requires pos <= |s|
    ensures |r| == |s| + 1
    ensures multiset(r) == multiset(s) + multiset{x}
  {
    assert s == s[..pos] + s[pos..];
    s[..pos] + [x] + s[pos..]
  }

  /** The insertion phase: each remaining element, left to right, goes where
      the binary search over the placed ones puts it. */
  function BinaryInsertAll<T>(placed: seq<T>, rest: seq<T>, cmp: (T, T) -> real): (r: seq<T>)
    ensures |r| == |placed| + |rest|
    ensures multiset(r) == multiset(placed) + multiset(rest)
    decreases |rest|
  {
    if rest == [] then placed
    else
      assert rest == [rest[0]] + rest[1..];
      BinaryInsertAll(InsertAt(placed, Search(placed, rest[0], cmp, 0, |placed|), rest[0]), rest[1..], cmp)
  }

  /** The run at the front, reversed when it strictly descends. */
  function FrontRun<T>(s: seq<T>, cmp: (T, T) -> real): (run: seq<T>)
    requires |s| >= 2
    ensures 2 <= |run| <= |s|
    ensures multiset(run) == multiset(s[..|run|])
  {
    var descending := cmp(s[1], s[0]) < 0.0;
    var n := RunEnd(s, cmp, descending, 1);
    if descending then Reverse(s[..n]) else s[..n]
  }

  /** `Array.prototype.sort(cmp)` in V8 for fewer than 64 elements. */
  function EngineSort<T>(s: seq<T>, cmp: (T, T) -> real): (r: seq<T>)
    ensures |r| == |s|
    ensures multiset(r) == multiset(s)
  {
    if |s| < 2 then s
    else
      var run := FrontRun(s, cmp);
      assert s == s[..|run|] + s[|run|..];
      BinaryInsertAll(run, s[|run|..], cmp)
  }

  /** Every element may stand after every earlier one. */
  ghost predicate OrderedBy<T>(r: seq<T>, follows: (T, T) -> bool)
  {
    forall i, j :: 0 <= i < j < |r| ==> follows(r[i], r[j])
  }

  ghost predicate TransitiveOn<T>(pool: seq<T>, follows: (T, T) -> bool)
  {
    forall a, b, c :: a in pool && b in pool && c in pool && follows(a, b) && follows(b, c) ==> follows(a, c)
  }

  /** Whichever order the comparator lets two elements of the pool take,
      `follows` accepts it. */
  ghost predicate Compatible<T>(pool: seq<T>, cmp: (T, T) -> real, follows: (T, T) -> bool)
  {
    forall a, b :: a in pool && b in pool ==>
      (cmp(b, a) >= 0.0 ==> follows(a, b)) && (cmp(b, a) < 0.0 ==> follows(b, a))
  }

  /** Under a transitive relation, neighbours in order make the whole list ordered. */
  lemma {:induction false} ChainOrdered<T>(r: seq<T>, follows: (T, T) -> bool, pool: seq<T>)
    requires TransitiveOn(pool, follows) && forall y :: y in r ==> y in pool
    requires forall k :: 1 <= k < |r| ==> follows(r[k - 1], r[k])
    ensures OrderedBy(r, follows)
  {
    if |r| > 1 {
      var init := r[..|r| - 1];
      assert forall k :: 0 <= k < |init| ==> init[k] == r[k];
      assert forall y :: y in init ==> y in r;
      ChainOrdered(init, follows, pool);
      forall i, j | 0 <= i < j < |r| ensures follows(r[i], r[j]) {
        if j < |r| - 1 {
          assert r[i] == init[i] && r[j] == init[j];
        } else if i < j - 1 {
          assert follows(init[i], init[j - 1]);
          assert r[i] in pool && r[j - 1] in pool && r[j] in pool;
        }
      }
    }
  }

  /** The run at the front is ordered. */
  lemma FrontRunOrdered<T>(s: seq<T>, cmp: (T, T) -> real, follows: (T, T) -> bool)
    requires |s| >= 2 && Compatible(s, cmp, follows) && TransitiveOn(s, follows)
    ensures OrderedBy(FrontRun(s, cmp), follows)
  {
    var descending := cmp(s[1], s[0]) < 0.0;
    var n := RunEnd(s, cmp, descending, 1);
    if descending {
      DescendingRunOrdered(s, cmp, follows, n);
    } else {
      AscendingRunOrdered(s, cmp, follows, n);
    }
  }

  lemma DescendingRunOrdered<T>(s: seq<T>, cmp: (T, T) -> real, follows: (T, T) -> bool, n: nat)
    requires 1 <= n <= |s| && Compatible(s, cmp, follows) && TransitiveOn(s, follows)
    requires forall k :: 1 <= k < n ==> cmp(s[k], s[k - 1]) < 0.0
    ensures OrderedBy(Reverse(s[..n]), follows)
  {
    DescendingRunChain(s, cmp, follows, n);
    PrefixMembers(Reverse(s[..n]), s, n);
    ChainOrdered(Reverse(s[..n]), follows, s);
  }

  lemma AscendingRunOrdered<T>(s: seq<T>, cmp: (T, T) -> real, follows: (T, T) -> bool, n: nat)
    requires 1 <= n <= |s| && Compatible(s, cmp, follows) && TransitiveOn(s, follows)
    requires forall k :: 1 <= k < n ==> !(cmp(s[k], s[k - 1]) < 0.0)
    ensures OrderedBy(s[..n], follows)
  {
    AscendingRunChain(s, cmp, follows, n);
    PrefixMembers(s[..n], s, n);
    ChainOrdered(s[..n], follows, s);
  }

  /** A run with no element that must precede the one before it has each
      neighbour pair in an order the relation accepts. */
  lemma AscendingRunChain<T>(s: seq<T>, cmp: (T, T) -> real, follows: (T, T) -> bool, n: nat)
    requires 1 <= n <= |s| && Compatible(s, cmp, follows)
    requires forall k :: 1 <= k < n ==> !(cmp(s[k], s[k - 1]) < 0.0)
    ensures var run := s[..n];
      forall k :: 1 <= k < |run| ==> follows(run[k - 1], run[k])
  {
    var run := s[..n];
    forall k | 1 <= k < |run| ensures follows(run[k - 1], run[k]) {
      assert run[k - 1] == s[k - 1] && run[k] == s[k];
    }
  }

  /** The elements of a permutation of a prefix all come from the list. */
  lemma PrefixMembers<T>(run: seq<T>, s: seq<T>, n: nat)
    requires n <= |s| && multiset(run) == multiset(s[..n])
    ensures forall y :: y in run ==> y in s
  {
    forall y | y in run ensures y in s {
      assert y in multiset(s[..n]);
      assert y in s[..n];
    }
  }

  /** A strictly descending run, reversed, has each neighbour pair in an
      order the relation accepts. */
  lemma DescendingRunChain<T>(s: seq<T>, cmp: (T, T) -> real, follows: (T, T) -> bool, n: nat)
    requires 1 <= n <= |s| && Compatible(s, cmp, follows)
    requires forall k :: 1 <= k < n ==> cmp(s[k], s[k - 1]) < 0.0
    ensures var run := Reverse(s[..n]);
      forall k :: 1 <= k < |run| ==> follows(run[k - 1], run[k])
  {
    var run := Reverse(s[..n]);
    forall k | 1 <= k < |run| ensures follows(run[k - 1], run[k]) {
      var m := n - k;
      assert run[k - 1] == s[m] && run[k] == s[m - 1];
      assert cmp(s[m], s[m - 1]) < 0.0;
    }
  }

  /** What a compatible relation says about one pair. */
  lemma AllowedOrder<T>(pool: seq<T>, cmp: (T, T) -> real, follows: (T, T) -> bool, a: T, b: T)
    requires Compatible(pool, cmp, follows) && a in pool && b in pool
    ensures cmp(b, a) >= 0.0 ==> follows(a, b)
    ensures cmp(b, a) < 0.0 ==> follows(b, a)
  {
  }

  /** x goes after p[pos - 1], so after every element in front of it. */
  lemma AfterAllBefore<T>(p: seq<T>, pos: nat, x: T, follows: (T, T) -> bool, pool: seq<T>)
    requires OrderedBy(p, follows) && TransitiveOn(pool, follows)
    requires x in pool && forall y :: y in p ==> y in pool
    requires 0 < pos <= |p| && follows(p[pos - 1], x)
    ensures forall i :: 0 <= i < pos ==> follows(p[i], x)
  {
    forall i | 0 <= i < pos - 1 ensures follows(p[i], x) {
      assert follows(p[i], p[pos - 1]) && p[i] in pool && p[pos - 1] in pool;
    }
  }

  /** x goes before p[pos], so before every element behind it. */
  lemma BeforeAllAfter<T>(p: seq<T>, pos: nat, x: T, follows: (T, T) -> bool, pool: seq<T>)
    requires OrderedBy(p, follows) && TransitiveOn(pool, follows)
    requires x in pool && forall y :: y in p ==> y in pool
    requires pos < |p| && follows(x, p[pos])
    ensures forall j :: pos <= j < |p| ==> follows(x, p[j])
  {
    forall j | pos < j < |p| ensures follows(x, p[j]) {
      assert follows(p[pos], p[j]) && p[pos] in pool && p[j] in pool;
    }
  }

  /** Putting x between everything it follows and everything that follows it
      keeps an ordered list ordered. */
  lemma SpliceOrdered<T>(p: seq<T>, pos: nat, x: T, follows: (T, T) -> bool)
    requires OrderedBy(p, follows) && pos <= |p|
    requires forall i :: 0 <= i < pos ==> follows(p[i], x)
    requires forall j :: pos <= j < |p| ==> follows(x, p[j])
    ensures OrderedBy(InsertAt(p, pos, x), follows)
  {
    var out := InsertAt(p, pos, x);
    forall i, j | 0 <= i < j < |out| ensures follows(out[i], out[j]) {
      if j < pos {
        assert out[i] == p[i] && out[j] == p[j];
      } else if i > pos {
        assert out[i] == p[i - 1] && out[j] == p[j - 1];
      } else if i < pos && j == pos {
        assert out[i] == p[i] && out[j] == x;
      } else if i < pos {
        assert out[i] == p[i] && out[j] == p[j - 1];
      } else {
        assert out[i] == x && out[j] == p[j - 1];
      }
    }
  }

  /** Binary insertion keeps an ordered list ordered. */
  lemma InsertOrdered<T>(p: seq<T>, x: T, cmp: (T, T) -> real, follows: (T, T) -> bool, pool: seq<T>)
    requires OrderedBy(p, follows) && Compatible(pool, cmp, follows) && TransitiveOn(pool, follows)
    requires x in pool && forall y :: y in p ==> y in pool
    ensures OrderedBy(InsertAt(p, Search(p, x, cmp, 0, |p|), x), follows)
  {
    InsertBetween(p, Search(p, x, cmp, 0, |p|), x, cmp, follows, pool);
  }

  /** Inserting x right after an element it need not precede and right
      before one it must precede keeps an ordered list ordered. */
  lemma InsertBetween<T>(p: seq<T>, pos: nat, x: T, cmp: (T, T) -> real, follows: (T, T) -> bool, pool: seq<T>)
    requires OrderedBy(p, follows) && Compatible(pool, cmp, follows) && TransitiveOn(pool, follows)
    requires x in pool && forall y :: y in p ==> y in pool
    requires pos <= |p| && NotBefore(p, x, cmp, pos) && Before(p, x, cmp, pos)
    ensures OrderedBy(InsertAt(p, pos, x), follows)
  {
    if pos > 0 {
      AllowedOrder(pool, cmp, follows, p[pos - 1], x);
      AfterAllBefore(p, pos, x, follows, pool);
    }
    if pos < |p| {
      AllowedOrder(pool, cmp, follows, p[pos], x);
      BeforeAllAfter(p, pos, x, follows, pool);
    }
    SpliceOrdered(p, pos, x, follows);
  }

  lemma {:induction false} BinaryInsertAllOrdered<T>(placed: seq<T>, rest: seq<T>, cmp: (T, T) -> real,
                                                      follows: (T, T) -> bool, pool: seq<T>)
    requires OrderedBy(placed, follows) && Compatible(pool, cmp, follows) && TransitiveOn(pool, follows)
    requires forall y :: y in placed ==> y in pool
    requires forall y :: y in rest ==> y in pool
    ensures OrderedBy(BinaryInsertAll(placed, rest, cmp), follows)
    decreases |rest|
  {
    if rest != [] {
      var x := rest[0];
      InsertOrdered(placed, x, cmp, follows, pool);
      var next := InsertAt(placed, Search(placed, x, cmp, 0, |placed|), x);
      forall y | y in next ensures y in pool {
        assert y in multiset(next);
      }
      assert forall y :: y in rest[1..] ==> y in rest;
      BinaryInsertAllOrdered(next, rest[1..], cmp, follows, pool);
    }
  }

  /** The engine's result is ordered by any transitive relation that accepts
      every order the comparator allows, however inconsistent the comparator. */
  lemma EngineSortOrdered<T>(s: seq<T>, cmp: (T, T) -> real, follows: (T, T) -> bool)
    requires Compatible(s, cmp, follows) && TransitiveOn(s, follows)
    ensures OrderedBy(EngineSort(s, cmp), follows)
  {
    if |s| >= 2 {
      var run := FrontRun(s, cmp);
      FrontRunOrdered(s, cmp, follows);
      forall y | y in run ensures y in s {
        assert y in multiset(s[..|run|]);
        assert y in s[..|run|];
      }
      assert forall y :: y in s[|run|..] ==> y in s;
      BinaryInsertAllOrdered(run, s[|run|..], cmp, follows, s);
    }
  }

  /** The first k of an ordered permutation of s: k elements drawn from s,
      in order, and each kept one may stand before each left out. */
  lemma TopOfOrdered<T>(sorted: seq<T>, s: seq<T>, follows: (T, T) -> bool, k: nat)
    requires OrderedBy(sorted, follows) && multiset(sorted) == multiset(s) && k <= |sorted|
    ensures var out := sorted[..k];
      && |out| == k
      && multiset(out) <= multiset(s)
      && OrderedBy(out, follows)
      && forall x, y :: x in out && y in multiset(s) - multiset(out) ==> follows(x, y)
  {
    var out := sorted[..k];
    assert sorted == out + sorted[k..];
    forall x, y | x in out && y in multiset(s) - multiset(out) ensures follows(x, y) {
      assert y in multiset(sorted[k..]);
      var i :| 0 <= i < k && out[i] == x;
      var j :| 0 <= j < |sorted[k..]| && sorted[k..][j] == y;
      assert sorted[i] == x && sorted[k + j] == y;
    }
    forall i, j | 0 <= i < j < k ensures follows(out[i], out[j]) {
      assert out[i] == sorted[i] && out[j] == sorted[j];
    }
  }

  /** "Need not precede": the relation a sorted list keeps. */
  function NeedNotPrecede<T>(cmp: (T, T) -> real): (T, T) -> bool
  {
    (a: T, b: T) => cmp(b, a) >= 0.0
  }

  /** With a consistent comparator the engine's result is sorted. */
  lemma EngineSortSorted<T>(s: seq<T>, cmp: (T, T) -> real)
    requires ConsistentOn(s, cmp)
    ensures SortedBy(EngineSort(s, cmp), cmp)
  {
    var follows := NeedNotPrecede(cmp);
    assert Compatible(s, cmp, follows);
    assert TransitiveOn(s, follows);
    EngineSortOrdered(s, cmp, follows);
  }

  /** The first k of the engine's sort by a consistent comparator: k elements
      drawn from the input, in order, and none left out must precede one kept. */
  lemma EngineSortedTop<T>(s: seq<T>, cmp: (T, T) -> real, k: nat)
    requires ConsistentOn(s, cmp) && k <= |s|
    ensures var out := EngineSort(s, cmp)[..k];
      && |out| == k
      && multiset(out) <= multiset(s)
      && SortedBy(out, cmp)
      && forall x, y :: x in out && y in multiset(s) - multiset(out) ==> cmp(y, x) >= 0.0
  {
    EngineSortSorted(s, cmp);
    TopOfSortedPermutation(EngineSort(s, cmp), s, cmp, k);
  }
}
