/** Fixed-point money.

    Amounts are kept as integers counting units of 1e-8, the grid that the rounding
    function Q snaps to. On that grid Q is the identity on sums and differences, so
    rounding shows up only where a product or a quotient is formed; there RoundDiv
    gives the rounded number of units. The lemmas at the end tie RoundDiv to Q over
    the reals, one for every shape of expression the engine rounds. */
module Money {
  /** One, in units. */
  const UNIT: int := 1_0000_0000

  function Min(a: int, b: int): int { if a < b then a else b }

  function Max(a: int, b: int): int { if a < b then b else a }

  function Abs(a: int): nat { if a < 0 then -a else a }

  function Sign(a: int): int { if a > 0 then 1 else if a < 0 then -1 else 0 }

  /** n / d rounded to the nearest integer, halves upwards, as Math.round does. */
  function RoundDiv(n: int, d: int): (r: int)
    requires 0 < d
  {
    (2 * n + d) / (2 * d)
  }

  lemma RoundDivNear(n: int, d: int)
    requires 0 < d
    ensures -d <= 2 * (n - RoundDiv(n, d) * d) < d
  {
    var a, b := 2 * n + d, 2 * d;
    assert a == a / b * b + a % b;
    assert RoundDiv(n, d) * b == 2 * (RoundDiv(n, d) * d);
  }

  lemma RoundDivAtLeast(n: int, d: int, m: int)
    requires 0 < d
    ensures m <= RoundDiv(n, d) <==> 2 * (m * d) <= 2 * n + d
  {
    RoundDivNear(n, d);
    var r := RoundDiv(n, d);
    hide RoundDiv;
    if m <= r { ProductMonotone(m, r, d); } else { ProductMonotone(r + 1, m, d); }
  }

  lemma ProductMonotone(a: int, b: int, d: int)
    requires a <= b && 0 < d
    ensures a * d <= b * d
  {
  }

  lemma ProductBelow(k: int, d: int)
    requires 0 < d && k * d < d
    ensures k <= 0
  {
  }

  /** Two integers within half of n / d on the same side are equal; with n <= m they are ordered. */
  lemma NearestOrdered(n: int, x: int, m: int, y: int, d: int)
    requires 0 < d && n <= m
    requires -d <= 2 * (n - x * d) < d
    requires -d <= 2 * (m - y * d) < d
    ensures x <= y
  {
    assert (x - y) * d == x * d - y * d;
    ProductBelow(x - y, d);
  }

  /** The bounds of RoundDivNear determine the result. */
  lemma RoundDivUnique(n: int, d: int, r: int)
    requires 0 < d
    requires -d <= 2 * (n - r * d) < d
    ensures r == RoundDiv(n, d)
  {
    RoundDivNear(n, d);
    NearestOrdered(n, r, n, RoundDiv(n, d), d);
    NearestOrdered(n, RoundDiv(n, d), n, r, d);
  }

  lemma RoundDivExact(k: int, d: int)
    requires 0 < d
    ensures RoundDiv(k * d, d) == k
  {
    RoundDivUnique(k * d, d, k);
  }

  lemma RoundDivMonotone(n: int, m: int, d: int)
    requires 0 < d && n <= m
    ensures RoundDiv(n, d) <= RoundDiv(m, d)
  {
    RoundDivNear(n, d);
    RoundDivNear(m, d);
    NearestOrdered(n, RoundDiv(n, d), m, RoundDiv(m, d), d);
  }

  /** A quotient between two integers stays between them when rounded. */
  lemma RoundDivBetween(lo: int, n: int, hi: int, d: int)
    requires 0 < d && lo * d <= n <= hi * d
    ensures lo <= RoundDiv(n, d) <= hi
  {
    RoundDivExact(lo, d);
    RoundDivExact(hi, d);
    RoundDivMonotone(lo * d, n, d);
    RoundDivMonotone(n, hi * d, d);
  }

  /** A share part/whole of a non-negative amount is between nothing and all of it,
      and the whole share is the amount itself. */
  lemma ShareBounds(part: int, whole: int, amount: int)
    requires 0 <= part <= whole && 0 < whole && 0 <= amount
    ensures 0 <= RoundDiv(part * amount, whole) <= amount
    ensures part == whole ==> RoundDiv(part * amount, whole) == amount
  {
    assert part * amount >= 0;
    assert (whole - part) * amount >= 0;
    assert (whole - part) * amount == whole * amount - part * amount;
    assert amount * whole == whole * amount;
    RoundDivBetween(0, part * amount, amount, whole);
    if part == whole {
      RoundDivExact(amount, whole);
    }
  }

  lemma RoundDivReal(n: int, d: int)
    requires 0 < d
    ensures -0.5 <= RoundDiv(n, d) as real - n as real / d as real <= 0.5
  {
    var r := RoundDiv(n, d);
    RoundDivNear(n, d);
    var e, k := d as real, r * d;
    var x := n as real / e;
    assert k as real == r as real * e;
    QuotientNear(x, r as real, e, n as real, k as real);
  }

  lemma QuotientNear(x: real, r: real, e: real, n: real, k: real)
    requires 0.0 < e && x * e == n && r * e == k
    requires -e <= 2.0 * (n - k) <= e
    ensures -0.5 <= r - x <= 0.5
  {
    var y := r - x;
    assert y * e == k - n;
    if 0.5 < y { RatioAboveStrict(y, e, 0.5); }
    if y < -0.5 { RatioAboveStrict(-y, e, 0.5); }
  }

  lemma RatioAboveStrict(y: real, e: real, c: real)
    requires 0.0 < e && c < y
    ensures c * e < y * e
  {
  }

  // ----- The rounding function of the source, over the reals -----

  /** Math.round */
  function Round(x: real): int
  {
    (x + 0.5).Floor
  }

  /** The rounding function of the source: Math.round(x * 1e8) / 1e8. */
  function Q(x: real): real
  {
    Value(Round(x * 100000000.0))
  }

  /** The amount that n units stand for. */
  function Value(n: int): real
  {
    n as real / 100000000.0
  }

  lemma ValueScaled(n: int)
    ensures Value(n) * 100000000.0 == n as real
  {
  }

  lemma QIdentityOnGrid(n: int)
    ensures Q(Value(n)) == Value(n)
  {
    ValueScaled(n);
    assert Round(n as real) == n;
  }

  lemma RoundMonotone(x: real, y: real)
    requires x <= y
    ensures Round(x) <= Round(y)
  {
  }

  lemma QMonotone(x: real, y: real)
    requires x <= y
    ensures Q(x) <= Q(y)
  {
    RoundMonotone(x * 100000000.0, y * 100000000.0);
    ValueMonotone(Round(x * 100000000.0), Round(y * 100000000.0));
  }

  lemma ValueMonotone(a: int, b: int)
    requires a <= b
    ensures Value(a) <= Value(b)
  {
  }

  lemma QWithinHalfUnit(x: real)
    ensures -0.5 / 100000000.0 <= Q(x) - x <= 0.5 / 100000000.0
  {
    var y := x * 100000000.0 + 0.5;
    assert y.Floor as real <= y < y.Floor as real + 1.0;
  }

  lemma QShift(n: int, x: real)
    ensures Q(Value(n) + x) == Value(n) + Q(x)
  {
    var y := x * 100000000.0 + 0.5;
    assert (Value(n) + x) * 100000000.0 + 0.5 == n as real + y;
    assert (n as real + y).Floor == n + y.Floor;
  }

  /** Sums and differences of grid amounts are not changed by Q. */
  lemma QSum(a: int, b: int)
    ensures Q(Value(a) + Value(b)) == Value(a + b)
    ensures Q(Value(a) - Value(b)) == Value(a - b)
  {
    QIdentityOnGrid(a + b);
    QIdentityOnGrid(a - b);
    assert Value(a) + Value(b) == Value(a + b);
    assert Value(a) - Value(b) == Value(a - b);
  }

  /** Rounding the quotient of two integers, taken in units, is RoundDiv. */
  lemma QQuotient(n: int, d: int)
    requires 0 < d
    ensures Q((n as real / d as real) / 100000000.0) == Value(RoundDiv(n, d))
  {
    var x := n as real / d as real;
    var r := RoundDiv(n, d);
    RoundDivNear(n, d);
    assert x / 100000000.0 * 100000000.0 == x;
    assert x * d as real == n as real;
    RealNearest(x, n, d, r);
  }

  lemma RealNearest(x: real, n: int, d: int, r: int)
    requires 0 < d && x * d as real == n as real
    requires -d <= 2 * (n - r * d) < d
    ensures (x + 0.5).Floor == r
  {
    var e, rr := d as real, r as real;
    var k := r * d;
    assert k as real == rr * e;
    assert -e <= 2.0 * (n as real - k as real) < e;
    NearestReal(x, rr, e, n as real, k as real);
  }

  lemma NearestReal(x: real, r: real, e: real, n: real, k: real)
    requires 0.0 < e && x * e == n && r * e == k
    requires -e <= 2.0 * (n - k) < e
    ensures -0.5 <= x - r < 0.5
  {
    var y := x - r;
    assert y * e == n - k;
    RatioBelow(y, e, 0.5);
    RatioAbove(y, e, -0.5);
  }

  lemma RatioBelow(y: real, e: real, c: real)
    requires 0.0 < e && y * e < c * e
    ensures y < c
  {
  }

  lemma RatioAbove(y: real, e: real, c: real)
    requires 0.0 < e && c * e <= y * e
    ensures c <= y
  {
  }

  lemma ProductScaled(p: real, n: real)
    ensures (p / 100000000.0) * (n / 100000000.0) == (p * n / 100000000.0) / 100000000.0
  {
  }

  /** Q((part / whole) * amount), as in every pro-rata split of margin. */
  lemma QShare(part: int, whole: int, amount: int)
    requires 0 < whole
    ensures Q((Value(part) / Value(whole)) * Value(amount)) == Value(RoundDiv(part * amount, whole))
  {
    QQuotient(part * amount, whole);
    var a, w, m := part as real, whole as real, amount as real;
    assert (part * amount) as real == a * m;
    calc {
      (Value(part) / Value(whole)) * Value(amount);
      { RatioScaled(a, w); }
      (a / w) * (m / 100000000.0);
      { QuotientTimes(a, w, m); }
      (a * m / w) / 100000000.0;
    }
  }

  lemma RatioScaled(a: real, w: real)
    requires w != 0.0
    ensures (a / 100000000.0) / (w / 100000000.0) == a / w
  {
    var x := a / w;
    assert x * w == a;
    assert x * (w / 100000000.0) == a / 100000000.0;
  }

  lemma QuotientTimes(a: real, w: real, m: real)
    requires w != 0.0
    ensures (a / w) * (m / 100000000.0) == (a * m / w) / 100000000.0
  {
    var x := a / w;
    assert x * w == a;
    assert x * m * w == a * m;
    assert x * m == a * m / w;
  }

  /** Q(price * quantity), as in notional, filledNotional and PnL. */
  lemma QProduct(p: int, n: int)
    ensures Q(Value(p) * Value(n)) == Value(RoundDiv(p * n, UNIT))
  {
    QShare(p, UNIT, n);
    var x := (Value(p) / Value(UNIT)) * Value(n);
    assert x == Value(p) * Value(n) by {
      UnitIsOne();
      hide Value;
      WholeOne(Value(p), Value(UNIT), Value(n));
    }
    hide Q, Value, RoundDiv;
  }

  lemma UnitIsOne()
    ensures Value(UNIT) == 1.0
  {
  }

  lemma WholeOne(a: real, w: real, b: real)
    requires w == 1.0
    ensures (a / w) * b == a * b
  {
  }

  /** Q((a * e + b * p) / (a + b)), the volume-weighted average entry price. */
  lemma QAverage(a: int, e: int, b: int, p: int)
    requires 0 < a + b
    ensures Q((Value(a) * Value(e) + Value(b) * Value(p)) / (Value(a) + Value(b)))
         == Value(RoundDiv(a * e + b * p, a + b))
  {
    var n, d := a * e + b * p, a + b;
    QQuotient(n, d);
    assert (a * e) as real == a as real * e as real;
    assert (b * p) as real == b as real * p as real;
    ProductScaled(a as real, e as real);
    ProductScaled(b as real, p as real);
    var rn, rd := n as real, d as real;
    assert Value(a) + Value(b) == rd / 100000000.0;
    assert Value(a) * Value(e) + Value(b) * Value(p) == (rn / 100000000.0) / 100000000.0;
    RatioScaled(rn / 100000000.0, rd);
    QuotientTimes(rn, rd, 1.0);
    assert rn / 100000000.0 == rn * (1.0 / 100000000.0);
    QuotientOfScaled(rn, rd);
  }

  lemma QuotientOfScaled(n: real, d: real)
    requires d != 0.0
    ensures (n / 100000000.0) / d == (n / d) / 100000000.0
  {
    var x := n / d;
    assert x * d == n;
    assert (x / 100000000.0) * d == n / 100000000.0;
  }

  /** If x in units is n / d, then Q(x) is RoundDiv(n, d) units. */
  lemma QScaled(x: real, n: int, d: int)
    requires 0 < d && (x * 100000000.0) * d as real == n as real
    ensures Q(x) == Value(RoundDiv(n, d))
  {
    RoundDivNear(n, d);
    RealNearest(x * 100000000.0, n, d, RoundDiv(n, d));
  }

  /** Q(a / b), as in required margin and average fill price. */
  lemma QRatio(a: int, b: int)
    requires 0 < b
    ensures Q(Value(a) / Value(b)) == Value(RoundDiv(a * UNIT, b))
  {
    var n, d := a as real, b as real;
    RatioScaled(n, d);
    var y := n / d;
    assert y * d == n;
    assert (y * 100000000.0) * d == n * 100000000.0;
    assert (a * UNIT) as real == n * 100000000.0;
    QScaled(y, a * UNIT, b);
  }
}
