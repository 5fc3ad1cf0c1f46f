/**
 * Pagination of the filtered file list: the page count, the slice shown for
 * one page, and the running numbers printed next to each file.
 */
module Paging {

  /** Bounds of the "Files per page" input. */
  const MinPageSize: nat := 10
  const MaxPageSize: nat := 200

  function Min(a: int, b: int): int {
    if a <= b then a else b
  }

  function Max(a: int, b: int): int {
    if a >= b then a else b
  }

  lemma MulMonotone(a: int, b: int, c: nat)
    requires a <= b
    ensures a * c <= b * c
  {
  }

  lemma MulStep(a: int, c: int)
    ensures (a + 1) * c == a * c + c
  {
  }

  /** `(total + page_size - 1) // page_size` is the ceiling of `total / page_size`. */
  lemma CeilingDivision(total: nat, pageSize: nat)
    requires pageSize >= 1 && total >= 1
    ensures var q := (total + pageSize - 1) / pageSize;
      q >= 1 && (q - 1) * pageSize < total <= q * pageSize
  {
    var n := total + pageSize - 1;
    var q := n / pageSize;
    var r := n % pageSize;
    assert n == q * pageSize + r && 0 <= r < pageSize;
    MulStep(q - 1, pageSize);
    if q < 1 {
      MulMonotone(q, 0, pageSize);
    }
  }

  /**
   * `max(1, (total + page_size - 1) // page_size)`: the fewest pages of
   * `pageSize` files that hold `total` files, and one page for no files.
   */
  function PageCount(total: nat, pageSize: nat): (count: nat)
    requires pageSize >= 1
    ensures count >= 1
    ensures total == 0 ==> count == 1
    ensures total > 0 ==> (count - 1) * pageSize < total <= count * pageSize
  {
    var q := (total + pageSize - 1) / pageSize;
    assert total > 0 ==> (q - 1) * pageSize < total <= q * pageSize by {
      if total > 0 {
        CeilingDivision(total, pageSize);
      }
    }
    Max(1, q)
  }

  /** `start = (page - 1) * page_size` */
  function PageStart(pageSize: nat, page: nat): nat
    requires page >= 1
  {
    (page - 1) * pageSize
  }

  /** `end = min(start + page_size, total)` */
  function PageEnd(total: nat, pageSize: nat, page: nat): int
    requires page >= 1
  {
    Min(PageStart(pageSize, page) + pageSize, total)
  }

  /**
   * For a page the "Page" input admits, the slice bounds lie inside the list,
   * the page holds at most `pageSize` files, only the last page may hold
   * fewer, and no page is empty unless the list is.
   */
  lemma PageBounds(total: nat, pageSize: nat, page: nat)
    requires pageSize >= 1 && 1 <= page <= PageCount(total, pageSize)
    ensures 0 <= PageStart(pageSize, page) <= PageEnd(total, pageSize, page) <= total
    ensures PageEnd(total, pageSize, page) - PageStart(pageSize, page) <= pageSize
    ensures page < PageCount(total, pageSize) ==>
      PageEnd(total, pageSize, page) - PageStart(pageSize, page) == pageSize
    ensures total > 0 <==> PageStart(pageSize, page) < PageEnd(total, pageSize, page)
  {
    var count := PageCount(total, pageSize);
    if total > 0 {
      MulMonotone(page - 1, count - 1, pageSize);
      if page < count {
        MulStep(page - 1, pageSize);
        MulMonotone(page, count - 1, pageSize);
      }
    }
  }

  /** `files[start:end]`: the files shown on page `page`. */
  function Page<T>(items: seq<T>, pageSize: nat, page: nat): (r: seq<T>)
    requires pageSize >= 1 && 1 <= page <= PageCount(|items|, pageSize)
    ensures |r| <= pageSize
    ensures page < PageCount(|items|, pageSize) ==> |r| == pageSize
    ensures |items| == 0 <==> r == []
    ensures |r| == PageEnd(|items|, pageSize, page) - PageStart(pageSize, page)
    ensures PageStart(pageSize, page) + |r| <= |items|
    ensures forall k :: 0 <= k < |r| ==> r[k] == items[PageStart(pageSize, page) + k]
  {
    PageBounds(|items|, pageSize, page);
    items[PageStart(pageSize, page)..PageEnd(|items|, pageSize, page)]
  }

  /** `enumerate(s, start=first)` */
  function Enumerate<T>(s: seq<T>, first: int): seq<(int, T)> {
    seq(|s|, k requires 0 <= k < |s| => (first + k, s[k]))
  }

  /**
   * What the page lists: each file of the page with its running number
   * `(page - 1) * pageSize + k + 1`, which is its 1-based position in the list.
   */
  function PageEntries<T>(items: seq<T>, pageSize: nat, page: nat): (entries: seq<(int, T)>)
    requires pageSize >= 1 && 1 <= page <= PageCount(|items|, pageSize)
    ensures |entries| <= pageSize
    ensures |items| == 0 <==> entries == []
    ensures forall k :: 0 <= k < |entries| ==>
      && 1 <= entries[k].0 <= |items|
      && entries[k].0 == (page - 1) * pageSize + k + 1
      && entries[k].1 == items[entries[k].0 - 1]
  {
    Enumerate(Page(items, pageSize, page), PageStart(pageSize, page) + 1)
  }

  /** Pages `page`, `page + 1`, ..., up to the last one, laid end to end. */
  function PagesFrom<T>(items: seq<T>, pageSize: nat, page: nat): seq<T>
    requires pageSize >= 1 && 1 <= page <= PageCount(|items|, pageSize) + 1
    decreases PageCount(|items|, pageSize) + 1 - page
  {
    if page > PageCount(|items|, pageSize) then []
    else Page(items, pageSize, page) + PagesFrom(items, pageSize, page + 1)
  }

  lemma {:induction false} PagesFromIsSuffix<T>(items: seq<T>, pageSize: nat, page: nat)
    requires pageSize >= 1 && 1 <= page <= PageCount(|items|, pageSize) + 1
    ensures PagesFrom(items, pageSize, page) == items[Min(PageStart(pageSize, page), |items|)..]
    decreases PageCount(|items|, pageSize) + 1 - page
  {
    var count := PageCount(|items|, pageSize);
    if page > count {
      if |items| > 0 {
        MulMonotone(count, page - 1, pageSize);
      }
    } else {
      PageBounds(|items|, pageSize, page);
      PagesFromIsSuffix(items, pageSize, page + 1);
      MulStep(page - 1, pageSize);
      var start := PageStart(pageSize, page);
      var end := PageEnd(|items|, pageSize, page);
      assert items[start..] == items[start..end] + items[end..];
    }
  }

  /** Pages 1 to the last, in order, give back the whole list: nothing skipped, nothing repeated. */
  lemma PagesReassembleList<T>(items: seq<T>, pageSize: nat)
    requires pageSize >= 1
    ensures PagesFrom(items, pageSize, 1) == items
  {
    PagesFromIsSuffix(items, pageSize, 1);
  }

  /**
   * Every file of the list is shown on page `i / pageSize + 1`, at position
   * `i % pageSize`, numbered `i + 1`.
   */
  lemma EveryItemHasAnEntry<T>(items: seq<T>, pageSize: nat, i: nat)
    requires pageSize >= 1 && i < |items|
    ensures 1 <= i / pageSize + 1 <= PageCount(|items|, pageSize)
    ensures i % pageSize < |PageEntries(items, pageSize, i / pageSize + 1)|
    ensures PageEntries(items, pageSize, i / pageSize + 1)[i % pageSize] == (i + 1, items[i])
  {
    var count := PageCount(|items|, pageSize);
    var p := i / pageSize + 1;
    assert i == (p - 1) * pageSize + i % pageSize;
    if p > count {
      MulMonotone(count, p - 1, pageSize);
    }
    PageBounds(|items|, pageSize, p);
  }

  /**
   * An entry's running number alone fixes the page and the position it is
   * shown at, so no file is listed twice.
   */
  lemma EntryNumberFixesPlace<T>(items: seq<T>, pageSize: nat, page: nat, k: nat)
    requires pageSize >= 1 && 1 <= page <= PageCount(|items|, pageSize)
    requires k < |PageEntries(items, pageSize, page)|
    ensures var i := PageEntries(items, pageSize, page)[k].0 - 1;
      0 <= i < |items| && page == i / pageSize + 1 && k == i % pageSize
  {
    var i := (page - 1) * pageSize + k;
    assert k < pageSize;
    assert i / pageSize == page - 1 && i % pageSize == k by {
      DivisionOfSum(page - 1, k, pageSize);
    }
  }

  lemma DivisionOfSum(q: nat, r: nat, d: nat)
    requires r < d
    ensures (q * d + r) / d == q && (q * d + r) % d == r
  {
    var n := q * d + r;
    var q' := n / d;
    assert n == q' * d + n % d && 0 <= n % d < d;
    if q' > q {
      MulMonotone(q + 1, q', d);
      MulStep(q, d);
    } else if q' < q {
      MulMonotone(q' + 1, q, d);
      MulStep(q', d);
    }
  }
}
