/**
 * The paging arithmetic shared by both repositories: the offset
 * `(page - 1) * size` in Go's 64-bit `int`, the `size`-limited window the
 * storage returns for a limit and an offset, and the page descriptor whose
 * `TotalPages` is the ceiling of the row count over the page size.
 *
 * The storage convention for the window is the one GORM's MySQL dialect
 * follows: a negative limit means no limit, an offset that is not positive
 * means no offset.
 */
module Pagination {
  import opened GoInt

  datatype Paging = Paging(page: int, rowsPerPage: int, totalRows: int, totalPages: int)

  /** `model.Paging{}`, returned beside an error. */
  const ZeroPaging := Paging(0, 0, 0, 0)

  /** `offset := (page - 1) * size`, both operations in 64-bit arithmetic. */
  function Offset(page: int, size: int): (r: int)
    ensures IsInt64(r)
    ensures IsInt64((page - 1) * size) ==> r == (page - 1) * size
    ensures (r - (page - 1) * size) % TwoTo64 == 0
  {
    Wrap64((page - 1) * size)
  }

  function Min(a: int, b: int): int
  {
    if a <= b then a else b
  }

  /** The rows a query with `Limit(limit).Offset(offset)` returns, in table order. */
  function Window<T>(rows: seq<T>, offset: int, limit: int): (r: seq<T>)
    ensures |r| <= |rows|
    ensures limit >= 0 ==> |r| <= limit
    ensures offset <= 0 ==> r == rows[..|r|]
    ensures offset <= 0 ==> r == rows[..if limit >= 0 then Min(limit, |rows|) else |rows|]
    ensures offset >= |rows| ==> r == []
    ensures limit < 0 && 0 <= offset <= |rows| ==> r == rows[offset..]
  {
    var start := if offset > 0 then Min(offset, |rows|) else 0;
    var stop := if limit >= 0 then Min(start + limit, |rows|) else |rows|;
    rows[start..stop]
  }

  /**
   * `int(math.Ceil(float64(total) / float64(size)))` for a non-zero size,
   * computed over the integers. (A zero size never reaches the repositories.)
   */
  function TotalPages(total: nat, size: int): (r: int)
    requires size != 0
    ensures size > 0 ==> r >= 0 && (r == 0 <==> total == 0)
    ensures size < 0 ==> r <= 0
  {
    if size > 0 then (total + size - 1) / size else -(total / -size)
  }

  /** The page descriptor the repositories return on success. */
  function PagingOf(page: int, size: int, total: nat): (p: Paging)
    requires size != 0
    ensures p.page == page && p.rowsPerPage == size && p.totalRows == total
    ensures p.totalPages == TotalPages(total, size)
  {
    Paging(page, size, total, TotalPages(total, size))
  }

  /** TotalPages is the ceiling of total / size, for either sign of size. */
  lemma TotalPagesIsCeiling(total: nat, size: int)
    requires size != 0
    ensures size > 0 ==> (TotalPages(total, size) - 1) * size < total <= TotalPages(total, size) * size
    ensures size < 0 ==> TotalPages(total, size) * size <= total < (TotalPages(total, size) - 1) * size
  {
    var r := TotalPages(total, size);
    if size > 0 {
      var n := total + size - 1;
      assert n == (n / size) * size + n % size && 0 <= n % size < size;
      assert r * size == n - n % size;
      assert (r - 1) * size == r * size - size;
    } else {
      var d := -size;
      assert total == (total / d) * d + total % d && 0 <= total % d < d;
      assert r * size == (total / d) * d;
      assert (r - 1) * size == r * size + d;
    }
  }

  /** No rows means no pages; any row means at least one page. */
  lemma TotalPagesZeroIffEmpty(total: nat, size: int)
    requires size >= 1
    ensures TotalPages(total, size) == 0 <==> total == 0
    ensures TotalPages(total, size) >= 0
  {
    TotalPagesIsCeiling(total, size);
  }

  /** Without 64-bit overflow the offset is the exact product. */
  lemma OffsetExact(page: int, size: int)
    requires IsInt64((page - 1) * size)
    ensures Offset(page, size) == (page - 1) * size
  {
  }

  /** The window of an in-range offset holds the table positions [offset, offset + limit). */
  lemma WindowPositions<T>(rows: seq<T>, offset: nat, limit: nat)
    ensures |Window(rows, offset, limit)| == if offset >= |rows| then 0 else Min(limit, |rows| - offset)
    ensures forall k :: 0 <= k < |Window(rows, offset, limit)| ==> Window(rows, offset, limit)[k] == rows[offset + k]
  {
  }

  /** Pages 1..n of size `size`, concatenated. */
  function Pages<T>(rows: seq<T>, size: nat, n: nat): seq<T>
    requires size >= 1
  {
    if n == 0 then [] else Pages(rows, size, n - 1) + Window(rows, (n - 1) * size, size)
  }

  lemma {:induction false} PagesArePrefix<T>(rows: seq<T>, size: nat, n: nat)
    requires size >= 1
    ensures Pages(rows, size, n) == rows[..Min(n * size, |rows|)]
  {
    if n > 0 {
      PagesArePrefix(rows, size, n - 1);
      var lo := (n - 1) * size;
      var hi := lo + size;
      assert hi == n * size;
      var a, b := Min(lo, |rows|), Min(hi, |rows|);
      assert Window(rows, lo, size) == rows[a..b];
      assert rows[..a] + rows[a..b] == rows[..b];
    }
  }

  /** Pages 1..TotalPages together hold every row exactly once, in table order. */
  lemma PagesCoverTable<T>(rows: seq<T>, size: nat)
    requires size >= 1
    ensures TotalPages(|rows|, size) >= 0
    ensures Pages(rows, size, TotalPages(|rows|, size)) == rows
  {
    TotalPagesZeroIffEmpty(|rows|, size);
    TotalPagesIsCeiling(|rows|, size);
    PagesArePrefix(rows, size, TotalPages(|rows|, size));
  }

  /** A page after the last one is empty, as long as its offset does not overflow. */
  lemma PageBeyondLastIsEmpty<T>(rows: seq<T>, page: int, size: int)
    requires size >= 1 && page > TotalPages(|rows|, size)
    requires IsInt64((page - 1) * size)
    ensures Window(rows, Offset(page, size), size) == []
  {
    TotalPagesIsCeiling(|rows|, size);
    var r := TotalPages(|rows|, size);
    assert (page - 1) * size >= r * size;
  }

  /**
   * The largest page, Atoi's clamp for an oversized page number, wraps the
   * offset to -20 with pages of 10, so the storage drops the offset and
   * answers with the first page instead of an empty one.
   */
  lemma MaxPageWrapsToFirstPage<T>(rows: seq<T>)
    ensures Offset(MaxInt64, 10) == -20
    ensures Window(rows, Offset(MaxInt64, 10), 10) == Window(rows, 0, 10)
  {
    assert (MaxInt64 - 1) * 10 + TwoTo63 == 5 * TwoTo64 + (TwoTo63 - 20);
  }

  /** 25 rows in pages of 10 make three pages; an empty table makes none. */
  lemma TwentyFiveRowsMakeThreePages()
    ensures TotalPages(25, 10) == 3 && TotalPages(0, 10) == 0
  {
  }
}
