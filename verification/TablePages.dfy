/** Page arithmetic of a table whose rows are all at hand. */
module TablePages {
  import opened Prelude

  /** Math.ceil of a quotient of a non-negative number. */
  function CeilDiv(n: nat, d: nat): nat
    requires d > 0
  {
    (n + d - 1) / d
  }

  function TablePageCount(total: int, pageSize: int): int {
    Max(1, CeilDiv(Max(0, total), Max(1, pageSize)))
  }

  function ClampedPage(total: int, page: int, pageSize: int): int {
    Max(1, Min(page, TablePageCount(total, pageSize)))
  }

  /** Array.prototype.slice with non-negative bounds. */
  function Slice<T>(rows: seq<T>, from: nat, to: nat): seq<T>
    requires from <= to
  {
    rows[Min(from, |rows|)..Min(to, |rows|)]
  }

  function PaginateTableRows<T>(rows: seq<T>, page: int, pageSize: int): seq<T> {
    var size := Max(1, pageSize);
    var start := (ClampedPage(|rows|, page, size) - 1) * size;
    assert start >= 0 by {
      Product(ClampedPage(|rows|, page, size) - 1, size);
    }
    Slice(rows, start, start + size)
  }

  datatype Range = Range(start: int, end: int)

  function TableRange(total: int, page: int, pageSize: int): Range {
    if total <= 0 then Range(0, 0)
    else
      var size := Max(1, pageSize);
      var start := (ClampedPage(total, page, size) - 1) * size + 1;
      Range(start, Min(total, start + size - 1))
  }

  lemma {:induction false} Product(a: nat, b: nat)
    ensures a * b >= 0
  {
  }

  lemma {:induction false} ProductLeq(a: nat, b: nat, size: nat)
    requires a <= b
    ensures a * size <= b * size
  {
  }

  lemma {:induction false} Division(x: nat, d: nat)
    requires d > 0
    ensures x == (x / d) * d + x % d && 0 <= x % d < d
  {
  }

  lemma {:induction false} OneLess(c: nat, d: nat)
    requires c > 0
    ensures (c - 1) * d == c * d - d
  {
  }

  /** A page number below the count leaves rows for another page, and the count covers all rows. */
  lemma {:induction false} PageFits(total: nat, size: nat, n: nat)
    requires size > 0 && n < TablePageCount(total, size)
    ensures n * size < total || (n == 0 && total == 0)
    ensures TablePageCount(total, size) * size >= total
  {
    var c := CeilDiv(total, size);
    Division(total + size - 1, size);
    if total > 0 {
      if c > 0 {
        OneLess(c, size);
        ProductLeq(n, c - 1, size);
      }
      ProductLeq(c, TablePageCount(total, size), size);
    }
  }

  /** The first n pages, one after another. */
  function FirstPages<T>(rows: seq<T>, pageSize: int, n: nat): seq<T> {
    if n == 0 then [] else FirstPages(rows, pageSize, n - 1) + PaginateTableRows(rows, n, pageSize)
  }

  /** One page as a slice, given where it starts. */
  lemma {:induction false} PageSlice<T>(rows: seq<T>, size: nat, n: nat, start: nat)
    requires size > 0 && n < TablePageCount(|rows|, size) && start == n * size && start <= |rows|
    ensures PaginateTableRows(rows, n + 1, size) == rows[start..Min(start + size, |rows|)]
  {
    hide TablePageCount;
    assert ClampedPage(|rows|, n + 1, size) == n + 1;
  }

  lemma {:induction false} PrefixOfPages<T>(rows: seq<T>, size: nat, n: nat, end: nat)
    requires size > 0 && n <= TablePageCount(|rows|, size) && end == n * size
    ensures FirstPages(rows, size, n) == rows[..Min(end, |rows|)]
  {
    hide TablePageCount, PaginateTableRows;
    if n > 0 {
      OneLess(n, size);
      Product(n - 1, size);
      PrefixOfPages(rows, size, n - 1, end - size);
      PageFits(|rows|, size, n - 1);
      PageSlice(rows, size, n - 1, end - size);
    }
  }

  /** Pages 1 to the page count are exactly the rows: nothing is lost, repeated or reordered. */
  lemma {:induction false} PagesAreTheRows<T>(rows: seq<T>, pageSize: int)
    requires pageSize > 0
    ensures FirstPages(rows, pageSize, TablePageCount(|rows|, pageSize)) == rows
  {
    var count := TablePageCount(|rows|, pageSize);
    Product(count, pageSize);
    PrefixOfPages(rows, pageSize, count, count * pageSize);
    PageFits(|rows|, pageSize, count - 1);
    assert rows[..|rows|] == rows;
  }

  /** The range names the bounds of each page, counted from one; every page but the last is full, and none is empty. */
  lemma {:induction false} RangeNamesPage<T>(rows: seq<T>, page: int, pageSize: int)
    requires pageSize > 0 && rows != [] && 1 <= page <= TablePageCount(|rows|, pageSize)
    ensures var r := TableRange(|rows|, page, pageSize);
      && 1 <= r.start <= r.end <= |rows| && r.start == (page - 1) * pageSize + 1
      && PaginateTableRows(rows, page, pageSize) == rows[r.start - 1..r.end]
      && (page < TablePageCount(|rows|, pageSize) ==> r.end - r.start + 1 == pageSize)
      && (page == TablePageCount(|rows|, pageSize) ==> r.end == |rows|)
  {
    PageFits(|rows|, pageSize, page - 1);
    assert page * pageSize == (page - 1) * pageSize + pageSize;
    Product(page - 1, pageSize);
    if page < TablePageCount(|rows|, pageSize) {
      PageFits(|rows|, pageSize, page);
    }
  }

  /** A page number outside the table shows its nearest page. */
  lemma {:induction false} OutsidePages<T>(rows: seq<T>, page: int, pageSize: int)
    requires pageSize > 0
    ensures page < 1 ==> PaginateTableRows(rows, page, pageSize) == PaginateTableRows(rows, 1, pageSize)
    ensures page > TablePageCount(|rows|, pageSize) ==>
      PaginateTableRows(rows, page, pageSize) == PaginateTableRows(rows, TablePageCount(|rows|, pageSize), pageSize)
  {
    assert ClampedPage(|rows|, page, pageSize) ==
      if page < 1 then 1 else if page > TablePageCount(|rows|, pageSize) then TablePageCount(|rows|, pageSize) else page;
  }
}
