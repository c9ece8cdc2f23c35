/** Client-side pagination shared by the product, investment and price lists:
    `Math.ceil(n / perPage)` pages, and page p shown as
    `items.slice((p - 1) * perPage, p * perPage)` with JavaScript's `slice`
    semantics (a negative index counts from the end, indices are clamped). */
module Paging {
  import opened Common

  /** `Math.ceil(n / k)` for a whole n and a positive k. */
  function TotalPages(n: nat, k: nat): (pages: nat)
    requires k > 0
    ensures pages * k >= n
    ensures pages == 0 || (pages - 1) * k < n
    ensures pages == 0 <==> n == 0
  {
    var q := (n + k - 1) / k;
    assert n + k - 1 == q * k + (n + k - 1) % k;
    q
  }

  /** How `slice` turns an index into a position in 0..len. */
  function SliceIndex(i: int, len: nat): (r: nat)
    ensures r <= len
  {
    if i < 0 then Max(len + i, 0) else Min(i, len)
  }

  /** `s.slice(start, end)`. */
  function JsSlice<T>(s: seq<T>, start: int, end: int): seq<T>
  {
    var from, to := SliceIndex(start, |s|), SliceIndex(end, |s|);
    if from < to then s[from..to] else []
  }

  /** The items shown on page p when every page holds k items. */
  function Page<T>(s: seq<T>, p: int, k: nat): (r: seq<T>)
    requires k > 0
    ensures |r| <= k
  {
    JsSlice(s, (p - 1) * k, p * k)
  }

  /** For a page number from 1 on, the page is the window [(p-1)k, pk) of the list, cut at its end. */
  lemma PageWindow<T>(s: seq<T>, p: int, k: nat)
    requires k > 0 && p >= 1
    ensures (p - 1) * k < |s| ==> Page(s, p, k) == s[(p - 1) * k..Min(p * k, |s|)]
    ensures (p - 1) * k >= |s| ==> Page(s, p, k) == []
  {
    assert (p - 1) * k >= 0 && p * k == (p - 1) * k + k;
  }

  /** Page 1 is the first k items, or the whole list if it is shorter. */
  lemma FirstPage<T>(s: seq<T>, k: nat)
    requires k > 0
    ensures Page(s, 1, k) == s[..Min(k, |s|)]
  {
    PageWindow(s, 1, k);
  }

  /** A page number past the last page, or page 0, shows nothing. */
  lemma PageBeyondEnd<T>(s: seq<T>, p: int, k: nat)
    requires k > 0
    requires p == 0 || p > TotalPages(|s|, k)
    ensures Page(s, p, k) == []
  {
    if p > 0 {
      var t := TotalPages(|s|, k);
      var d := p - 1 - t;
      var start := (p - 1) * k;
      assert start == t * k + d * k;
      assert d * k >= 0;
      assert p * k == start + k;
      assert SliceIndex(start, |s|) == |s| && SliceIndex(p * k, |s|) == |s|;
    }
  }

  /** Pages 1..m laid end to end. */
  function Pages<T>(s: seq<T>, m: nat, k: nat): seq<T>
    requires k > 0
  {
    if m == 0 then [] else Pages(s, m - 1, k) + Page(s, m, k)
  }

  lemma {:induction false} PagesPrefix<T>(s: seq<T>, m: nat, k: nat)
    requires k > 0
    ensures Pages(s, m, k) == s[..Min(m * k, |s|)]
  {
    if m > 0 {
      PagesPrefix(s, m - 1, k);
      PageWindow(s, m, k);
      assert (m - 1) * k + k == m * k;
    }
  }

  /** Pages 1..totalPages partition the list: laid end to end they give it
      back exactly, with no item missing and none shown twice. */
  lemma PagesPartition<T>(s: seq<T>, k: nat)
    requires k > 0
    ensures Pages(s, TotalPages(|s|, k), k) == s
  {
    PagesPrefix(s, TotalPages(|s|, k), k);
  }
}
