/** Small facts about products and division, kept apart so that no larger proof reasons about them. */
module Arith {

  lemma MulMonotone(w: nat, a: int, b: int)
    requires a <= b
    ensures w * a <= w * b
  {
  }

  lemma DivMod(n: nat, d: nat)
    requires d > 0
    ensures d * (n / d) + n % d == n && 0 <= n % d < d && 0 <= n / d
  {
  }

  /** Quotient and remainder are determined by the equation they satisfy. */
  lemma DivUnique(n: nat, d: nat, q: int, r: int)
    requires d > 0 && d * q + r == n && 0 <= r < d
    ensures n / d == q && n % d == r
  {
    DivMod(n, d);
    var q', r' := n / d, n % d;
    assert d * (q' - q) == r - r';
    assert d * (q - q') == -(d * (q' - q));
    WithinOne(d, q' - q, 0);
    WithinOne(d, q - q', 0);
  }

  /** w * p < w * x + w leaves no room for p above x. */
  lemma WithinOne(w: nat, p: int, x: int)
    requires w > 0 && w * p < w * x + w
    ensures p <= x
  {
    if p > x {
      MulMonotone(w, x + 1, p);
    }
  }

  lemma SameFactor(w: nat, p: int, x: int)
    requires w > 0 && w * p == w * x
    ensures p == x
  {
    WithinOne(w, p, x);
    WithinOne(w, x, p);
  }

  /** The larger numerator has the larger quotient, or the same quotient and the larger remainder. */
  lemma QuotientOrder(w: nat, e: int, f: int, r: int, e': int, f': int, r': int)
    requires w > 0 && e > e'
    requires w * f + r == e && 0 <= r < w
    requires w * f' + r' == e' && 0 <= r' < w
    ensures f >= f' && (f == f' ==> r > r')
  {
    WithinOne(w, f', f);
  }

  /** A multiple of w has no remainder. */
  lemma NoRemainder(w: nat, f: int, r: int, x: int)
    requires w > 0 && w * f + r == w * x && 0 <= r < w
    ensures r == 0 && f == x
  {
    WithinOne(w, f, x);
    WithinOne(w, x, f);
  }

  /** p is the floor or the ceiling of e / w, and e / w itself when the remainder r is 0. */
  predicate FloorOrCeiling(w: nat, p: int, e: int, r: int) {
    w * p < e + w && e < w * p + w && (r == 0 ==> w * p == e)
  }

  predicate Within(x: int, limit: int) {
    -limit <= x <= limit
  }

  lemma ErrorWithin(total: nat, share: nat, amount: nat, w: nat, rest: nat)
    requires FloorOrCeiling(total, share, amount * w, rest)
    ensures Within(amount * w - total * share, total - 1)
  {
  }

  /** Rounding up instead of down, and only when there is a remainder. */
  lemma RoundedEither(w: nat, f: int, r: int, e: int, up: bool)
    requires w > 0 && w * f + r == e && 0 <= r < w && (up ==> r > 0)
    ensures FloorOrCeiling(w, f + (if up then 1 else 0), e, r)
  {
    assert w * (f + 1) == w * f + w;
  }

  /** If w * left lies between 0 and n * w then left lies between 0 and n. */
  lemma QuotientRange(w: nat, left: int, n: nat)
    requires w > 0 && 0 <= w * left <= w * n
    ensures 0 <= left <= n
  {
    WithinOne(w, left, n);
    WithinOne(w, 0, left);
  }
}
