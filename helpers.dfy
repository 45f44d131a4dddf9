/**
 * paginateArray: one page of a list, with the page arithmetic echoed back.
 * Slicing follows `Array.prototype.slice`, so a page number below 1 gives a
 * negative start that counts from the end of the list.
 */
module Helpers {
  import opened Seqs

  datatype Pagination = Pagination(page: int, pageSize: int, totalItems: nat, totalPages: nat)
  datatype Paginated<T> = Paginated(data: seq<T>, pagination: Pagination)

  /** `Math.ceil(a / b)` for a count and a positive divisor. */
  function CeilDiv(a: nat, b: nat): (q: nat)
    requires b > 0
    ensures q * b >= a
    ensures q > 0 ==> (q - 1) * b < a
  {
    (a + b - 1) / b
  }

  /** How `slice` reads an index: a negative one counts from the end, and both are clamped to the length. */
  function SliceIndex(i: int, n: nat): (k: nat)
    ensures k <= n
    ensures 0 <= i <= n ==> k == i
  {
    if i < 0 then (if n + i < 0 then 0 else n + i)
    else if i > n then n
    else i
  }

  /** `s.slice(start, end)`. */
  function JsSlice<T>(s: seq<T>, start: int, end: int): (r: seq<T>)
    ensures 0 <= start <= end ==> r == s[Min(start, |s|)..Min(end, |s|)]
    ensures |r| <= |s|
    ensures start <= end ==> |r| <= end - start
  {
    var a := SliceIndex(start, |s|);
    var b := SliceIndex(end, |s|);
    SliceWidth(start, end, |s|);
    if a < b then s[a..b] else []
  }

  lemma SliceWidth(start: int, end: int, n: nat)
    ensures start <= end && SliceIndex(start, n) < SliceIndex(end, n) ==> SliceIndex(end, n) - SliceIndex(start, n) <= end - start
  {
    if start < 0 && n + start < 0 {
      assert SliceIndex(start, n) == 0;
    }
  }

  /**
   * paginateArray: the items of page `page` (counted from 1) and the totals.
   * `pageSize` must be positive: the source's `Math.ceil(n / 0)` is not a number.
   */
  function PaginateArray<T>(items: seq<T>, page: int, pageSize: int): (p: Paginated<T>)
    requires pageSize > 0
    ensures p.pagination == Pagination(page, pageSize, |items|, CeilDiv(|items|, pageSize))
    ensures |p.data| <= pageSize
  {
    var totalItems := |items|;
    var totalPages := CeilDiv(totalItems, pageSize);
    var start := (page - 1) * pageSize;
    Paginated(JsSlice(items, start, start + pageSize), Pagination(page, pageSize, totalItems, totalPages))
  }

  /** Page `page` (from 1) holds the items from `(page - 1) * pageSize` up to `page * pageSize`, clamped to the list. */
  lemma PageWindow<T>(items: seq<T>, page: int, pageSize: int)
    requires pageSize > 0
    ensures page >= 1 ==>
      PaginateArray(items, page, pageSize).data == items[Min((page - 1) * pageSize, |items|)..Min(page * pageSize, |items|)]
  {
    if page >= 1 {
      PageBounds(page, pageSize);
      var start := (page - 1) * pageSize;
      var data := JsSlice(items, start, start + pageSize);
      assert data == items[Min(start, |items|)..Min(start + pageSize, |items|)];
    }
  }

  /** Page `page` (from 1) starts at a non-negative offset and ends one page later. */
  lemma PageBounds(page: int, pageSize: int)
    requires pageSize > 0 && page >= 1
    ensures 0 <= (page - 1) * pageSize
    ensures (page - 1) * pageSize + pageSize == page * pageSize
  {
  }

  /** A page past the last one is empty. */
  lemma PageBeyondEndIsEmpty<T>(items: seq<T>, page: int, pageSize: int)
    requires pageSize > 0
    requires page > CeilDiv(|items|, pageSize)
    ensures PaginateArray(items, page, pageSize).data == []
  {
    PastLastPage(|items|, page, pageSize);
    PageWindow(items, page, pageSize);
  }

  /** A page after the last one starts, and ends, at or after the last item. */
  lemma PastLastPage(n: nat, page: int, pageSize: int)
    requires pageSize > 0
    requires page > CeilDiv(n, pageSize)
    ensures page >= 1
    ensures n <= (page - 1) * pageSize <= page * pageSize
  {
    var q := CeilDiv(n, pageSize);
    MulMonotone(page - 1, q, pageSize);
    PageBounds(page, pageSize);
  }

  lemma MulMonotone(x: int, y: int, c: int)
    requires x >= y && c > 0
    ensures x * c >= y * c
  {
    assert x * c == y * c + (x - y) * c;
  }

  /** Pages 1 to `k`, one after the other. */
  function Pages<T>(items: seq<T>, pageSize: int, k: nat): seq<T>
    requires pageSize > 0
  {
    if k == 0 then [] else Pages(items, pageSize, k - 1) + PaginateArray(items, k, pageSize).data
  }

  /** The first `k` pages are the first `k * pageSize` items. */
  lemma {:induction false} PagesArePrefix<T>(items: seq<T>, pageSize: int, k: nat)
    requires pageSize > 0
    ensures Pages(items, pageSize, k) == items[..Min(k * pageSize, |items|)]
  {
    if k > 0 {
      PagesArePrefix(items, pageSize, k - 1);
      PageWindow(items, k, pageSize);
      PageBounds(k, pageSize);
      var a := Min((k - 1) * pageSize, |items|);
      var b := Min(k * pageSize, |items|);
      assert items[..a] + items[a..b] == items[..b];
    }
  }

  /** Reading every page in turn gives back the whole list, each item exactly once and in order. */
  lemma PagesCoverItems<T>(items: seq<T>, pageSize: int)
    requires pageSize > 0
    ensures Pages(items, pageSize, CeilDiv(|items|, pageSize)) == items
  {
    PagesArePrefix(items, pageSize, CeilDiv(|items|, pageSize));
  }
}
