/** Page arithmetic of djgrid/grid.py: `Grid.get_total_pages` and the
    computations `Grid.paginate` performs, under Python 2 integer division,
    and the slicing of a QuerySet. */
module GridPaging {
  import opened Wrappers
  import opened PyErrors

  /** Python's `a / b` on two ints in Python 2: rounds toward minus infinity. */
  function FloorDiv(a: int, b: int): int
    requires b != 0
  {
    if b > 0 then a / b else (-a) / (-b)
  }

  /** `Grid.get_total_pages`: `int(math.ceil(count / limit)) + 1` when there
      are records, else 1. The division is already integral, so `ceil` has
      no effect; dividing by a zero page size raises. */
  function TotalPages(count: nat, limit: int): (r: Result<int, PyError>)
    ensures r.Failure? <==> count > 0 && limit == 0
    ensures r.Failure? ==> r.error == ZeroDivisionError
    ensures count == 0 ==> r == Success(1)
  {
    if count > 0 then
      if limit == 0 then Failure(ZeroDivisionError) else Success(FloorDiv(count, limit) + 1)
    else Success(1)
  }

  /** The page clamp of grid.py:323-324: never above the last page, no lower bound. */
  function ClampPage(page: int, totalPages: int): (p: int)
    ensures p <= totalPages
    ensures p == page || (page > totalPages && p == totalPages)
  {
    if page > totalPages then totalPages else page
  }

  /** grid.py:325: the offset of the first record of a page. */
  function PageStart(limit: int, page: int): int {
    limit * page - limit
  }

  /** Python slicing `s[lo:hi]` for non-negative bounds: clipped to the
      length, empty when hi <= lo. */
  function Window<T>(s: seq<T>, lo: nat, hi: nat): (r: seq<T>)
    ensures |r| <= |s|
    ensures lo <= hi <= |s| ==> r == s[lo..hi]
    ensures |r| > 0 ==> lo + |r| <= |s| && r == s[lo..lo + |r|] && |r| <= hi - lo
  {
    var a := if lo < |s| then lo else |s|;
    var b := if hi < a then a else if hi < |s| then hi else |s|;
    s[a..b]
  }

  /** `queryset[lo:hi]`: Django refuses negative bounds with an assertion. */
  function Slice<T>(s: seq<T>, lo: int, hi: int): (r: Result<seq<T>, PyError>)
    ensures r.Failure? <==> lo < 0 || hi < 0
    ensures r.Success? ==> r.value == Window(s, lo, hi)
  {
    if lo < 0 || hi < 0 then Failure(AssertionError("Negative indexing is not supported."))
    else Success(Window(s, lo, hi))
  }

  /** The window from `lo` of width `width` is the run of elements from
      `lo` on: at most `width` of them, and exactly `width` when the
      sequence reaches past its end. */
  lemma WindowRun<T>(s: seq<T>, lo: nat, width: int)
    requires lo + width >= 0
    ensures var r := Window(s, lo, lo + width);
      && (|r| > 0 ==> lo + |r| <= |s|)
      && (forall i :: 0 <= i < |r| ==> r[i] == s[lo + i])
      && (width >= 0 ==> |r| <= width)
      && (width >= 0 && lo + width <= |s| ==> |r| == width)
  {
    var r := Window(s, lo, lo + width);
    if |r| > 0 {
      assert r == s[lo..lo + |r|];
    }
  }

  /** A page from 1 on with a positive page size is the run of at most
      `limit` records that starts at its offset. */
  lemma ShownPage<T>(s: seq<T>, limit: int, page: int)
    requires limit > 0 && page >= 1
    ensures var lo := PageStart(limit, page);
      lo >= 0 && Slice(s, lo, lo + limit).Success?
      && var shown := Slice(s, lo, lo + limit).value;
      |shown| <= limit && (lo + limit <= |s| ==> shown == s[lo..lo + limit])
  {
    assert PageStart(limit, page) == limit * (page - 1);
    MulMonotone(0, page - 1, limit);
  }

  /** There is no lower clamp: with a positive page size, a page below 1
      makes the slice negative, and Django refuses it. */
  lemma PageBelowOneFails<T>(s: seq<T>, limit: int, page: int)
    requires limit > 0 && page < 1
    ensures Slice(s, PageStart(limit, page), PageStart(limit, page) + limit).Failure?
  {
    assert PageStart(limit, page) == limit * (page - 1);
    MulMonotone(page - 1, -1, limit);
  }

  /** With a positive page size the page count is at least 1 and the pages
      cover every record: the last page starts at or before the last record
      and ends after it. */
  lemma TotalPagesCover(count: nat, limit: int)
    requires limit > 0
    ensures TotalPages(count, limit).Success?
    ensures var t := TotalPages(count, limit).value;
      t >= 1 && PageStart(limit, t) <= count < t * limit
  {
    var t := TotalPages(count, limit).value;
    if count > 0 {
      var q := count / limit;
      assert t == q + 1;
      assert q * limit <= count < (q + 1) * limit;
      assert PageStart(limit, t) == q * limit;
    }
  }

  /** Every record falls on exactly the page its index says: record i lies
      on page i/limit + 1, which is a page that exists. */
  lemma {:induction false} RecordOnSomePage(count: nat, limit: int, i: nat)
    requires limit > 0 && i < count
    ensures var p := i / limit + 1;
      1 <= p <= TotalPages(count, limit).value && PageStart(limit, p) <= i < PageStart(limit, p) + limit
  {
    var p := i / limit + 1;
    assert PageStart(limit, p) == (i / limit) * limit;
    assert (i / limit) * limit <= i < (i / limit) * limit + limit;
    assert i / limit <= count / limit by {
      DivMonotone(i, count, limit);
    }
  }

  lemma DivMonotone(a: nat, b: nat, d: int)
    requires d > 0 && a <= b
    ensures a / d <= b / d
  {
    var qa, qb := a / d, b / d;
    assert qa * d <= a;
    assert b < (qb + 1) * d;
    MulCancel(qa, qb + 1, d);
  }

  lemma MulCancel(x: int, y: int, d: int)
    requires d > 0 && x * d < y * d
    ensures x < y
  {
    if x >= y {
      MulMonotone(y, x, d);
    }
  }

  lemma MulMonotone(x: int, y: int, d: int)
    requires d > 0 && x <= y
    ensures x * d <= y * d
  {
  }

  /** The consequence of integer division: when the count is a positive
      multiple of the page size, the last page starts after the last record
      and is empty (20 records at 10 per page make 3 pages). */
  lemma {:induction false} TrailingEmptyPage(count: nat, limit: int)
    requires limit > 0 && count > 0 && count % limit == 0
    ensures var t := TotalPages(count, limit).value;
      t == count / limit + 1 && PageStart(limit, t) == count
  {
    var t := TotalPages(count, limit).value;
    assert t == count / limit + 1;
    assert PageStart(limit, t) == (count / limit) * limit;
    assert count == (count / limit) * limit + count % limit;
  }

  /** The two data points: 25 and 20 records at 10 per page both make 3 pages. */
  lemma TotalPagesExamples()
    ensures TotalPages(25, 10) == Success(3)
    ensures TotalPages(20, 10) == Success(3)
    ensures TotalPages(0, 10) == Success(1)
    ensures TotalPages(5, -2) == Success(-2)
  {
  }
}
