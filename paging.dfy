/** Page windowing of an aggregation result. The handlers take `page` and
    `limit` from the query string (defaults 1 and 10), pass them through
    `parseInt(x, 10)`, and hand the sorted result to the aggregate-paginate
    plugin. The plugin's code is not part of this model; what is modelled is
    the envelope it is taken to build: a value that is missing, not a number
    or below 1 falls back to the default; the items of page p are those after
    the first (p - 1) * limit; `totalPages` is `Math.ceil(total / limit) || 1`,
    so an empty result still has one page. */
module Paging {
  import opened Common

  const DefaultPage: nat := 1
  const DefaultLimit: nat := 10

  /** `const { page = 1 } = req.query` followed by `parseInt(page, 10)`:
      a missing parameter takes the numeric default, a present one is parsed
      (`None` stands for NaN). */
  function QueryNumber(param: Option<string>, default: nat): (r: Option<int>)
    ensures param.None? ==> r == Some(default)
  {
    match param
    case None => Some(default)
    case Some(s) => ParseInt(s)
  }

  /** A usable page or limit: a positive number, else the default. */
  function Normalise(n: Option<int>, default: nat): (r: nat)
    requires default >= 1
    ensures r >= 1
    ensures n.Some? && n.value >= 1 ==> r == n.value
    ensures (n.None? || n.value < 1) ==> r == default
  {
    if n.Some? && n.value >= 1 then n.value else default
  }

  datatype Page<T> = Page(
    items: seq<T>,
    totalItems: nat,
    page: nat,
    limit: nat,
    totalPages: nat,
    hasPrev: bool,
    hasNext: bool)

  function CeilDiv(n: nat, d: nat): nat
    requires d >= 1
  {
    (n + d - 1) / d
  }

  function Min(a: nat, b: nat): nat {
    if a <= b then a else b
  }

  function Max(a: nat, b: nat): nat {
    if a >= b then a else b
  }

  /** The items of page `page` with `limit` items per page. */
  function Window<T>(s: seq<T>, page: nat, limit: nat): (r: seq<T>)
    requires page >= 1
    ensures |r| <= limit
    ensures forall k :: 0 <= k < |r| ==> (page - 1) * limit + k < |s| && r[k] == s[(page - 1) * limit + k]
    ensures (page - 1) * limit + limit <= |s| ==> |r| == limit
  {
    var start := Min((page - 1) * limit, |s|);
    var end := Min((page - 1) * limit + limit, |s|);
    s[start..end]
  }

  function Paginate<T>(s: seq<T>, page: Option<int>, limit: Option<int>): Page<T> {
    var p := Normalise(page, DefaultPage);
    var l := Normalise(limit, DefaultLimit);
    var total := Max(1, CeilDiv(|s|, l));
    Page(Window(s, p, l), |s|, p, l, total, p > 1, p < total)
  }

  /** With neither parameter given, the first ten results are returned. */
  lemma DefaultsArePageOneOfTen<T>(s: seq<T>)
    ensures var pg := Paginate(s, QueryNumber(None, DefaultPage), QueryNumber(None, DefaultLimit));
            pg.page == 1 && pg.limit == 10 && pg.items == s[..Min(10, |s|)]
  {
  }

  lemma CeilDivBounds(n: nat, l: nat)
    requires l >= 1
    ensures CeilDiv(n, l) * l >= n
    ensures CeilDiv(n, l) == 0 || (CeilDiv(n, l) - 1) * l < n
  {
    var x := n + l - 1;
    var q := x / l;
    var r := x % l;
    assert x == q * l + r && 0 <= r < l;
    if q > 0 {
      assert (q - 1) * l == q * l - l;
    }
  }

  /** `totalPages` is the ceiling of totalItems / limit, and 1 for an empty result. */
  lemma TotalPagesIsCeiling<T>(s: seq<T>, page: Option<int>, limit: Option<int>)
    ensures var pg := Paginate(s, page, limit);
            pg.totalPages >= 1 && pg.totalPages * pg.limit >= |s| &&
            (|s| == 0 ==> pg.totalPages == 1) &&
            (|s| > 0 ==> (pg.totalPages - 1) * pg.limit < |s|)
  {
    var l := Normalise(limit, DefaultLimit);
    var pg := Paginate(s, page, limit);
    assert pg.limit == l && pg.totalPages == Max(1, CeilDiv(|s|, l));
    if |s| == 0 {
      assert pg.totalPages == 1;
    } else {
      CeilDivBounds(|s|, l);
      CeilDivPositive(|s|, l);
      assert pg.totalPages == CeilDiv(|s|, l);
    }
  }

  lemma CeilDivPositive(n: nat, l: nat)
    requires l >= 1 && n >= 1
    ensures CeilDiv(n, l) >= 1
  {
    assert n + l - 1 >= l;
  }

  /** A page past the last one is empty, and the totals are unaffected. */
  lemma PastTheLastPage<T>(s: seq<T>, page: Option<int>, limit: Option<int>)
    requires var pg := Paginate(s, page, limit); pg.page > pg.totalPages
    ensures var pg := Paginate(s, page, limit); pg.items == [] && pg.totalItems == |s| && !pg.hasNext
  {
    TotalPagesIsCeiling(s, page, limit);
    var pg := Paginate(s, page, limit);
    assert (pg.page - 1) * pg.limit >= pg.totalPages * pg.limit by {
      MulMonotone(pg.totalPages, pg.page - 1, pg.limit);
    }
  }

  lemma MulMonotone(a: nat, b: nat, c: nat)
    requires a <= b
    ensures a * c <= b * c
  {
  }

  /** The pages 1 .. n, one after the other. */
  function PagesUpTo<T>(s: seq<T>, n: nat, limit: nat): seq<T> {
    if n == 0 then [] else PagesUpTo(s, n - 1, limit) + Window(s, n, limit)
  }

  /** Reading the first n pages yields the first n * limit results, in order. */
  lemma {:induction false} PagesUpToIsPrefix<T>(s: seq<T>, n: nat, limit: nat)
    ensures PagesUpTo(s, n, limit) == s[..Min(n * limit, |s|)]
  {
    if n > 0 {
      PagesUpToIsPrefix(s, n - 1, limit);
      assert (n - 1) * limit + limit == n * limit;
      MulMonotone(n - 1, n, limit);
      var a := Min((n - 1) * limit, |s|);
      var b := Min(n * limit, |s|);
      assert s[..a] + s[a..b] == s[..b];
    }
  }

  /** All pages together, from 1 to `totalPages`, hold every result exactly
      once, in order. */
  lemma AllPagesCoverTheResult<T>(s: seq<T>, page: Option<int>, limit: Option<int>)
    ensures var pg := Paginate(s, page, limit);
            PagesUpTo(s, pg.totalPages, pg.limit) == s
  {
    var pg := Paginate(s, page, limit);
    TotalPagesIsCeiling(s, page, limit);
    PagesUpToIsPrefix(s, pg.totalPages, pg.limit);
  }
}
