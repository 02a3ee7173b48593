/** Normalisation of the `page` and `limit` query parameters of the list operation,
    the skip offset handed to the store and the page count returned to the client. */
module Pagination {
  import opened Wrappers

  const DEFAULT_PAGE := 1
  const DEFAULT_LIMIT := 10
  const MIN_LIMIT := 1
  const MAX_LIMIT := 50

  /** `Math.max` and `Math.min` on integers. */
  function Max(a: int, b: int): int { if a < b then b else a }
  function Min(a: int, b: int): int { if a < b then a else b }

  /** The effective page: `Math.max(1, parseInt(page))` with `page` defaulting to 1.
      `page` is the already-parsed integer, `None` when the parameter is absent. */
  function EffectivePage(page: Option<int>): (p: int)
    ensures p >= 1
    ensures page.None? ==> p == DEFAULT_PAGE
    ensures page.Some? && page.value >= 1 ==> p == page.value
    ensures page.Some? && page.value < 1 ==> p == 1
  {
    Max(1, page.GetOr(DEFAULT_PAGE))
  }

  /** The effective limit: `Math.min(50, Math.max(1, parseInt(limit)))` with `limit`
      defaulting to 10. */
  function EffectiveLimit(limit: Option<int>): (l: int)
    ensures MIN_LIMIT <= l <= MAX_LIMIT
    ensures limit.None? ==> l == DEFAULT_LIMIT
    ensures limit.Some? && MIN_LIMIT <= limit.value <= MAX_LIMIT ==> l == limit.value
    ensures limit.Some? && limit.value < MIN_LIMIT ==> l == MIN_LIMIT
    ensures limit.Some? && limit.value > MAX_LIMIT ==> l == MAX_LIMIT
  {
    Min(MAX_LIMIT, Max(MIN_LIMIT, limit.GetOr(DEFAULT_LIMIT)))
  }

  /** The number of records the store skips before the requested page. */
  function Skip(page: int, limit: int): int {
    (page - 1) * limit
  }

  /** `Math.ceil(total / limit)`, computed on integers. */
  function TotalPages(total: nat, limit: int): (n: nat)
    requires limit >= 1
    ensures total <= n * limit
    ensures total > 0 ==> (n - 1) * limit < total
    ensures total == 0 ==> n == 0
  {
    var q := total / limit;
    var r := total % limit;
    assert total == q * limit + r;
    if r == 0 then q else (assert (q + 1) * limit == q * limit + limit; q + 1)
  }

  /** `a <= b` implies `a * c <= b * c` for a non-negative factor. */
  lemma {:induction false} MulMonotone(a: int, b: int, c: int)
    requires a <= b && c >= 0
    ensures a * c <= b * c
  {
    assert b * c - a * c == (b - a) * c;
  }

  /** The skip offset is a non-negative multiple of the limit, zero exactly on the first page,
      and the page it starts is `page` itself. */
  lemma {:induction false} SkipBounds(page: int, limit: int)
    requires page >= 1 && limit >= 1
    ensures Skip(page, limit) >= 0
    ensures Skip(page, limit) % limit == 0
    ensures Skip(page, limit) / limit == page - 1
    ensures Skip(page, limit) == 0 <==> page == 1
  {
    var s := Skip(page, limit);
    MulMonotone(0, page - 1, limit);
    assert s == (page - 1) * limit + 0;
    DivModUnique(s, limit, page - 1, 0);
    if page > 1 {
      MulMonotone(1, page - 1, limit);
    }
  }

  /** Euclidean division is determined by quotient and remainder. */
  lemma {:induction false} DivModUnique(x: int, d: int, q: int, r: int)
    requires d >= 1 && 0 <= r < d && x == q * d + r
    ensures x / d == q && x % d == r
  {
    var q', r' := x / d, x % d;
    assert x == q' * d + r';
    if q' < q {
      assert (q' + 1) * d == q' * d + d;
      MulMonotone(q' + 1, q, d);
      assert false;
    } else if q < q' {
      assert (q + 1) * d == q * d + d;
      MulMonotone(q + 1, q', d);
      assert false;
    }
  }

  /** The three properties of `TotalPages` single out one number: it is the ceiling. */
  lemma {:induction false} TotalPagesUnique(total: nat, limit: int, n: nat)
    requires limit >= 1
    requires total <= n * limit
    requires total > 0 ==> (n - 1) * limit < total
    requires total == 0 ==> n == 0
    ensures n == TotalPages(total, limit)
  {
    var m := TotalPages(total, limit);
    if n < m {
      MulMonotone(n, m - 1, limit);
      assert false;
    } else if m < n {
      MulMonotone(m, n - 1, limit);
      assert false;
    }
  }

  /** A page starts inside the collection exactly when it is one of the first `TotalPages`:
      every later page is empty. */
  lemma {:induction false} PageInRange(total: nat, limit: int, page: int)
    requires limit >= 1 && page >= 1
    ensures Skip(page, limit) < total <==> page <= TotalPages(total, limit)
  {
    var n := TotalPages(total, limit);
    if page <= n {
      MulMonotone(page - 1, n - 1, limit);
    } else {
      MulMonotone(n, page - 1, limit);
    }
  }

  /** Every record index of a collection of `total` records lies on exactly one page, and that
      page is one of the first `TotalPages`. */
  lemma {:induction false} RecordOnOnePage(total: nat, limit: int, i: int)
    requires limit >= 1 && 0 <= i < total
    ensures var p := i / limit + 1;
      && 1 <= p <= TotalPages(total, limit)
      && Skip(p, limit) <= i < Skip(p, limit) + limit
    ensures forall p :: 1 <= p && Skip(p, limit) <= i < Skip(p, limit) + limit ==> p == i / limit + 1
  {
    var p := i / limit + 1;
    assert i == (p - 1) * limit + i % limit;
    assert Skip(p, limit) + limit == p * limit;
    PageInRange(total, limit, p);
    forall p' | 1 <= p' && Skip(p', limit) <= i < Skip(p', limit) + limit
      ensures p' == p
    {
      assert Skip(p', limit) == (p' - 1) * limit;
      DivModUnique(i, limit, p' - 1, i - Skip(p', limit));
    }
  }
}
