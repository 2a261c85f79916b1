/** Page arithmetic of `list_schemas` and `list_tables`, on Go's `int`. */
module Paging {
  import opened Wrappers
  import opened Values

  const DefaultPageSize: int := 20
  const MaxPageSize: int := 100

  function Abs(x: int): nat {
    if x < 0 then -x else x
  }

  /** The only bound applied to `page_size`: values above 100 become 100; every
      other value, including 0 and negative ones, is kept. */
  function ClampPageSize(requested: int): (size: int)
    ensures size <= MaxPageSize
    ensures requested <= MaxPageSize ==> size == requested
    ensures requested > MaxPageSize ==> size == MaxPageSize
  {
    if requested > MaxPageSize then MaxPageSize else requested
  }

  /** Rows skipped before page `page`; pages are numbered from 1. */
  function Offset(page: int, pageSize: int): int {
    (page - 1) * pageSize
  }

  /** Go's integer division, which truncates toward zero: the remainder has the
      sign of the dividend and is smaller than the divisor in magnitude. */
  function GoDiv(a: int, b: int): (q: int)
    requires b != 0
    ensures Abs(a - q * b) < Abs(b)
    ensures a >= 0 ==> a - q * b >= 0
    ensures a <= 0 ==> a - q * b <= 0
  {
    if b > 0 then GoDivByPositive(a, b)
    else
      var p := GoDivByPositive(a, -b);
      assert -p * b == p * -b;
      -p
  }

  function GoDivByPositive(a: int, b: int): (q: int)
    requires b > 0
    ensures -b < a - q * b < b
    ensures a >= 0 ==> a - q * b >= 0
    ensures a <= 0 ==> a - q * b <= 0
  {
    if a >= 0 then
      assert a == (a / b) * b + a % b;
      a / b
    else
      assert -a == ((-a) / b) * b + (-a) % b;
      -((-a) / b)
  }

  /** `(totalCount + pageSize - 1) / pageSize`; with a page size of 0 the division
      panics. */
  function TotalPages(totalCount: int, pageSize: int): (r: Result<int, Error>)
    ensures r.Failure? <==> pageSize == 0
    ensures r.Failure? ==> r.error == DivideByZero
  {
    if pageSize == 0 then Failure(DivideByZero)
    else Success(GoDiv(totalCount + pageSize - 1, pageSize))
  }

  /** For a count of rows and a positive page size, the page total is the ceiling of
      their quotient: the smallest number of pages that holds every row. */
  lemma TotalPagesIsCeiling(totalCount: int, pageSize: int)
    requires totalCount >= 0 && pageSize >= 1
    ensures TotalPages(totalCount, pageSize).Success?
    ensures var t := TotalPages(totalCount, pageSize).value;
            t >= 0 && (t - 1) * pageSize < totalCount <= t * pageSize
    ensures totalCount == 0 ==> TotalPages(totalCount, pageSize) == Success(0)
    ensures totalCount % pageSize == 0 ==>
              TotalPages(totalCount, pageSize) == Success(totalCount / pageSize)
  {
    var a := totalCount + pageSize - 1;
    var t := GoDiv(a, pageSize);
    var m := a - t * pageSize;
    assert 0 <= m < pageSize;
    assert t * pageSize == a - m;
    assert (t - 1) * pageSize == t * pageSize - pageSize;
    if totalCount % pageSize == 0 {
      var e := totalCount / pageSize;
      assert totalCount == e * pageSize;
      CeilingIsUnique(totalCount, pageSize, t, e);
    }
  }

  lemma CeilingIsUnique(totalCount: int, pageSize: int, s: int, t: int)
    requires pageSize >= 1
    requires (s - 1) * pageSize < totalCount <= s * pageSize
    requires (t - 1) * pageSize < totalCount <= t * pageSize
    ensures s == t
  {
    if s < t {
      assert s * pageSize <= (t - 1) * pageSize by { MultiplyMonotone(s, t - 1, pageSize); }
    } else if t < s {
      assert t * pageSize <= (s - 1) * pageSize by { MultiplyMonotone(t, s - 1, pageSize); }
    }
  }

  lemma MultiplyMonotone(x: int, y: int, k: int)
    requires x <= y && k >= 0
    ensures x * k <= y * k
  {
    assert y * k - x * k == (y - x) * k;
  }

  /** With a positive page size, row `k` (counted from 0) is on exactly one page:
      page `k / pageSize + 1`. */
  lemma RowIsOnOnePage(k: nat, pageSize: int, page: int)
    requires pageSize >= 1
    ensures var p := k / pageSize + 1;
            p >= 1 && Offset(p, pageSize) <= k < Offset(p, pageSize) + pageSize
    ensures Offset(page, pageSize) <= k < Offset(page, pageSize) + pageSize ==>
              page == k / pageSize + 1
  {
    var p := k / pageSize + 1;
    assert k == (k / pageSize) * pageSize + k % pageSize;
    assert Offset(p, pageSize) == (k / pageSize) * pageSize;
    if Offset(page, pageSize) <= k < Offset(page, pageSize) + pageSize {
      assert Offset(page, pageSize) + pageSize == page * pageSize;
      assert Offset(p, pageSize) + pageSize == p * pageSize;
      CeilingIsUnique(k + 1, pageSize, page, p);
    }
  }

  /** Every row of the count lies on a page between 1 and the page total. */
  lemma RowsFitInTotalPages(totalCount: int, pageSize: int, k: nat)
    requires pageSize >= 1 && k < totalCount
    ensures 1 <= k / pageSize + 1 <= TotalPages(totalCount, pageSize).value
  {
    TotalPagesIsCeiling(totalCount, pageSize);
    var t := TotalPages(totalCount, pageSize).value;
    RowIsOnOnePage(k, pageSize, k / pageSize + 1);
    var p := k / pageSize + 1;
    if p > t {
      MultiplyMonotone(t, p - 1, pageSize);
    }
  }

  /** Go's division is not Dafny's: with a page size of -3 and no rows the page total
      is 1, where Euclidean division would give 2. */
  lemma NegativePageSizeTruncates()
    ensures TotalPages(0, -3) == Success(1)
    ensures (0 + -3 - 1) / -3 == 2
  {
  }
}
