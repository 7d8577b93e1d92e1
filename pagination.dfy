/**
 * Page arithmetic shared by both handlers:
 * `page = parseInt(q.page) || 1`, `limit = parseInt(q.limit) || 20`,
 * `skip = (page - 1) * limit` and `totalPages = Math.ceil(total / limit)`,
 * on mathematical integers.
 */
module Pagination {
  import opened Wrappers
  import opened Filters
  import opened JsParseInt

  const DefaultPage := 1
  const DefaultLimit := 20

  /**
   * `parsed || fallback` for a `parseInt` result: NaN and 0 (also -0) are falsy
   * and give way to the fallback; every other number, negative ones included, is kept.
   */
  function OrDefault(parsed: Option<int>, fallback: int): (r: int)
    ensures fallback != 0 ==> r != 0
    ensures r == fallback || (parsed == Some(r) && r != 0)
    ensures parsed.Some? && parsed.value != 0 ==> r == parsed.value
  {
    if parsed.None? || parsed.value == 0 then fallback else parsed.value
  }

  /** `parseInt(req.query.page) || 1`. */
  function Page(q: Query): (page: int)
    ensures page != 0
    ensures "page" !in q ==> page == DefaultPage
    ensures "page" in q && ParseInt(q["page"]).Some? && ParseInt(q["page"]).value != 0 ==>
      page == ParseInt(q["page"]).value
    ensures "page" in q && (ParseInt(q["page"]).None? || ParseInt(q["page"]) == Some(0)) ==>
      page == DefaultPage
  {
    UndefinedIsNaN();
    OrDefault(ParseInt(AsString(Lookup(q, "page"))), DefaultPage)
  }

  /** `parseInt(req.query.limit) || 20`: never 0, so `total / limit` is defined. */
  function Limit(q: Query): (limit: int)
    ensures limit != 0
    ensures "limit" !in q ==> limit == DefaultLimit
    ensures "limit" in q && ParseInt(q["limit"]).Some? && ParseInt(q["limit"]).value != 0 ==>
      limit == ParseInt(q["limit"]).value
    ensures "limit" in q && (ParseInt(q["limit"]).None? || ParseInt(q["limit"]) == Some(0)) ==>
      limit == DefaultLimit
  {
    UndefinedIsNaN();
    OrDefault(ParseInt(AsString(Lookup(q, "limit"))), DefaultLimit)
  }

  /** Number of records on the pages before `page`. */
  function Skip(page: int, limit: int): (skip: int)
    ensures page == DefaultPage ==> skip == 0
    ensures page >= 1 && limit >= 1 ==> skip >= 0
  {
    if page >= 1 && limit >= 1 then
      MulNonNegative(page - 1, limit);
      (page - 1) * limit
    else
      (page - 1) * limit
  }

  /** Without a `page` parameter the window starts at the first record. */
  lemma NoPageMeansNoSkip(q: Query)
    ensures "page" !in q ==> Skip(Page(q), Limit(q)) == 0
  {
  }

  /** Consecutive pages are consecutive windows of `limit` records. */
  lemma {:induction false} SkipSteps(page: int, limit: int)
    ensures Skip(page + 1, limit) == Skip(page, limit) + limit
    ensures page >= 1 && limit >= 1 ==> Skip(page, limit) >= 0
  {
    assert (page + 1 - 1) * limit == (page - 1) * limit + limit;
    if page >= 1 && limit >= 1 {
      MulNonNegative(page - 1, limit);
    }
  }

  lemma MulNonNegative(a: int, b: int)
    requires a >= 0 && b >= 0
    ensures a * b >= 0
  {
  }

  /**
   * `Math.ceil(total / limit)` on exact rationals: the least integer not below
   * `total / limit`. For a positive `limit` it is the least `n` with
   * `n * limit >= total`; a negative `limit` flips the inequalities.
   */
  function TotalPages(total: nat, limit: int): (n: int)
    requires limit != 0
    ensures limit > 0 ==> n >= 0 && n * limit >= total && (n - 1) * limit < total
    ensures limit > 0 ==> (n == 0 <==> total == 0)
    ensures limit < 0 ==> n <= 0 && n * limit <= total && (n - 1) * limit > total
  {
    if limit > 0 then
      var n := (total + limit - 1) / limit;
      CeilDivision(total, limit);
      n
    else
      var n := -(total / -limit);
      FloorDivision(total, -limit);
      n
  }

  lemma CeilDivision(total: nat, limit: int)
    requires limit > 0
    ensures var n := (total + limit - 1) / limit;
      n >= 0 && n * limit >= total && (n - 1) * limit < total
  {
    var n := (total + limit - 1) / limit;
    var r := (total + limit - 1) % limit;
    assert total + limit - 1 == n * limit + r;
    assert (n - 1) * limit == n * limit - limit;
  }

  lemma FloorDivision(total: nat, m: int)
    requires m > 0
    ensures var n := -(total / m);
      n <= 0 && n * -m <= total && (n - 1) * -m > total
  {
    var q := total / m;
    var r := total % m;
    assert total == q * m + r;
    assert (-q) * -m == q * m;
    assert (-q - 1) * -m == q * m + m;
  }

  /**
   * For a positive page and limit, the page's window starts inside the matching
   * records exactly when the page is not past the last page.
   */
  lemma {:induction false} PageInRange(total: nat, page: int, limit: int)
    requires page >= 1 && limit >= 1
    ensures Skip(page, limit) < total <==> page <= TotalPages(total, limit)
  {
    var n := TotalPages(total, limit);
    if page <= n {
      assert (page - 1) * limit <= (n - 1) * limit by {
        MulNonNegative(n - page, limit);
        assert (n - 1) * limit - (page - 1) * limit == (n - page) * limit;
      }
    } else {
      assert (page - 1) * limit >= n * limit by {
        MulNonNegative(page - 1 - n, limit);
        assert (page - 1) * limit - n * limit == (page - 1 - n) * limit;
      }
    }
  }
}
