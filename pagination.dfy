/** The paging arithmetic the list routes of server/src/index.ts share:
    `parseInt(q) || default` for page and limit, `skip = (page - 1) * limit`
    and `totalPages = Math.ceil(total / limit)`. */
module Pagination {
  import opened JsRuntime

  const DEFAULT_PAGE: int := 1
  const DEFAULT_LIMIT: int := 10

  /** `parseInt(q) || d`: NaN and 0 are falsy and give the default. */
  function QueryInt(q: Option<string>, d: int): (n: int)
    ensures ParseIntOpt(q).Some? && ParseIntOpt(q).value != 0 ==> n == ParseIntOpt(q).value
    ensures ParseIntOpt(q).None? || ParseIntOpt(q).value == 0 ==> n == d
  {
    match ParseIntOpt(q)
    case Some(v) => if v != 0 then v else d
    case None => d
  }

  datatype Window = Window(page: int, limit: int, skip: int)

  /** The page, limit and skip a list route computes from its query string. */
  function PageWindow(pageQ: Option<string>, limitQ: Option<string>, defaultLimit: int): (w: Window)
    requires defaultLimit > 0
    ensures w.page != 0 && w.limit != 0
    ensures w.skip == (w.page - 1) * w.limit
    ensures w.page == QueryInt(pageQ, DEFAULT_PAGE) && w.limit == QueryInt(limitQ, defaultLimit)
  {
    var page := QueryInt(pageQ, DEFAULT_PAGE);
    var limit := QueryInt(limitQ, defaultLimit);
    Window(page, limit, (page - 1) * limit)
  }

  /** `Math.ceil(total / limit)` for a count `total` and a non-zero limit. */
  function TotalPages(total: nat, limit: int): int
    requires limit != 0
  {
    if limit > 0 then (total + limit - 1) / limit else -(total / -limit)
  }

  /** With a positive limit the page count is the least number of pages of
      `limit` rows that holds `total` rows. */
  lemma {:induction false} TotalPagesIsCeiling(total: nat, limit: int)
    requires limit > 0
    ensures var tp := TotalPages(total, limit);
            tp >= 0 && tp * limit >= total && (tp - 1) * limit < total + (if total == 0 then limit else 0)
    ensures total == 0 <==> TotalPages(total, limit) == 0
  {
    var tp := TotalPages(total, limit);
    var q, r := (total + limit - 1) / limit, (total + limit - 1) % limit;
    assert total + limit - 1 == q * limit + r && 0 <= r < limit;
    assert tp == q;
    assert tp * limit == total + limit - 1 - r;
  }

  /** Every row index below `total` lies on exactly one page of the page
      list: page `k / limit + 1`, whose window starts at its skip. */
  lemma {:induction false} RowOnItsPage(total: nat, limit: int, k: int)
    requires limit > 0 && 0 <= k < total
    ensures var p := k / limit + 1;
            1 <= p <= TotalPages(total, limit) &&
            (p - 1) * limit <= k < p * limit
  {
    TotalPagesIsCeiling(total, limit);
    var p := k / limit + 1;
    var tp := TotalPages(total, limit);
    assert (p - 1) * limit <= k;
    if p > tp {
      assert (p - 1) * limit >= tp * limit by {
        assert p - 1 >= tp;
        MulMonotone(tp, p - 1, limit);
      }
    }
  }

  lemma MulMonotone(a: int, b: int, c: int)
    requires a <= b && c >= 0
    ensures a * c <= b * c
  {
  }

  lemma {:induction false} ParseZero()
    ensures ParseInt("0") == Some(0)
  {
    ParseDecimal(0);
    assert DecimalString(0) == "0";
  }

  lemma ParseWord()
    ensures ParseInt("ten") == None
  {
    assert !IsSpace('t');
    assert TrimStart("ten") == "ten";
    assert !IsDigit('t', 10);
    assert DigitRun("ten", 10) == "";
  }

  /** Absent, zero and unparsable parameters fall back to page 1 of 10 rows. */
  lemma {:induction false} DefaultWindow()
    ensures PageWindow(None, None, DEFAULT_LIMIT) == Window(1, 10, 0)
    ensures PageWindow(Some("0"), Some("ten"), DEFAULT_LIMIT) == Window(1, 10, 0)
  {
    ParseZero();
    ParseWord();
  }
}
