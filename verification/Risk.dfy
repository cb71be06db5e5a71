/** Margin and liquidation arithmetic. All rates and leverages are in units too: a
    leverage of 10 is 10 * UNIT and a maintenance rate of 0.5% is UNIT / 200. */
module Risk {
  import opened Money
  import opened States

  function Notional(price: int, quantity: int): int
  {
    RoundDiv(price * quantity, UNIT)
  }

  /** None stands for the infinite requirement at a leverage of zero or less. */
  function RequiredMargin(price: int, quantity: int, leverage: int): Option<int>
  {
    if leverage <= 0 then None else Some(RoundDiv(Notional(price, quantity) * UNIT, leverage))
  }

  /** x falls short of a requirement. */
  predicate Short(x: int, required: Option<int>) { required.None? || x < required.value }

  /** The price at which a position opened at `entry` has lost its collateral down to
      the maintenance rate: entry * (1 - 1/leverage + mmr) for a long, floored at 0,
      and entry * (1 + 1/leverage - mmr) for a short. */
  function LiquidationPrice(entry: int, leverage: int, long: bool, mmr: int): int
  {
    if leverage <= 0 then 0
    else if long then
      RoundDiv(Max(0, entry * (UNIT * leverage - UNIT * UNIT + mmr * leverage)), UNIT * leverage)
    else
      RoundDiv(entry * (UNIT * leverage + UNIT * UNIT - mmr * leverage), UNIT * leverage)
  }

  predicate IsLiquidatable(mark: int, liqPrice: int, long: bool)
  {
    if liqPrice <= 0 then false
    else if long then mark <= liqPrice else liqPrice <= mark
  }

  /** The integer numerator of the liquidation price over UNIT * leverage. */
  function LiquidationNumerator(entry: int, leverage: int, long: bool, mmr: int): int
  {
    if long then entry * (UNIT * leverage - UNIT * UNIT + mmr * leverage)
    else entry * (UNIT * leverage + UNIT * UNIT - mmr * leverage)
  }

  /** What being liquidatable means: the liquidation price is at least half a unit, so that
      it does not round to 0, and the loss per contract at the mark has used up the initial
      margin rate 1/leverage down to the maintenance rate, to half a unit. Scaled by
      UNIT * leverage, with the loss of a long being entry - mark and that of a short
      mark - entry. A position whose liquidation price is 0 is never liquidatable. */
  lemma LiquidatableWhenMarginIsGone(entry: int, leverage: int, long: bool, mmr: int, mark: int)
    ensures var loss := if long then entry - mark else mark - entry;
      var buffer := entry * (UNIT * UNIT - mmr * leverage);
      var used := (2 * loss + 1) * (UNIT * leverage);
      IsLiquidatable(mark, LiquidationPrice(entry, leverage, long, mmr), long)
      == (0 < leverage && UNIT * leverage <= 2 * LiquidationNumerator(entry, leverage, long, mmr)
          && (if long then 2 * buffer <= used else 2 * buffer < used))
  {
    if 0 < leverage {
      PositiveLiquidation(entry, leverage, long, mmr);
      if 0 < LiquidationPrice(entry, leverage, long, mmr) {
        MarginIsGone(entry, leverage, long, mmr, mark);
        hide LiquidationPrice, LiquidationNumerator;
      }
    }
  }

  lemma PositiveLiquidation(entry: int, leverage: int, long: bool, mmr: int)
    requires 0 < leverage
    ensures 0 < LiquidationPrice(entry, leverage, long, mmr)
       <==> UNIT * leverage <= 2 * LiquidationNumerator(entry, leverage, long, mmr)
  {
    var d, n := UNIT * leverage, LiquidationNumerator(entry, leverage, long, mmr);
    ZeroRounds(d);
    RoundDivAtLeast(n, d, 1);
    hide RoundDiv;
  }

  lemma MarginIsGone(entry: int, leverage: int, long: bool, mmr: int, mark: int)
    requires 0 < leverage && 0 < LiquidationPrice(entry, leverage, long, mmr)
    ensures var loss := if long then entry - mark else mark - entry;
      var buffer := entry * (UNIT * UNIT - mmr * leverage);
      var used := (2 * loss + 1) * (UNIT * leverage);
      IsLiquidatable(mark, LiquidationPrice(entry, leverage, long, mmr), long)
      == (if long then 2 * buffer <= used else 2 * buffer < used)
  {
    var d := UNIT * leverage;
    var buffer := entry * (UNIT * UNIT - mmr * leverage);
    if long {
      var n := entry * (UNIT * leverage - UNIT * UNIT + mmr * leverage);
      ZeroRounds(d);
      hide RoundDiv;
      assert n == entry * d - buffer by { Spread(entry, d, UNIT * UNIT - mmr * leverage); }
      RoundDivAtLeast(n, d, mark);
      Scaled(entry, mark, d);
    } else {
      var n := entry * (UNIT * leverage + UNIT * UNIT - mmr * leverage);
      hide RoundDiv;
      assert n == entry * d + buffer by { Spread(entry, d, -(UNIT * UNIT - mmr * leverage)); }
      RoundDivAtLeast(n, d, mark + 1);
      Scaled(mark, entry, d);
    }
  }

  lemma ZeroRounds(d: int)
    requires 0 < d
    ensures RoundDiv(0, d) == 0
  {
    RoundDivExact(0, d);
  }

  lemma Spread(e: int, d: int, x: int)
    ensures e * (d - x) == e * d - e * x
  {
  }

  lemma Scaled(a: int, b: int, d: int)
    ensures (2 * (a - b) + 1) * d == 2 * (a * d) - 2 * (b * d) + d
  {
  }

  // ----- The formulas over the reals -----

  /** Notional over leverage, each step rounded. */
  function RoundedMargin(price: int, quantity: int, leverage: int): real
    requires 0 < leverage
  {
    Q(Q(Value(price) * Value(quantity)) / Value(leverage))
  }

  lemma RequiredMarginIsRounded(price: int, quantity: int, leverage: int)
    ensures var r := RequiredMargin(price, quantity, leverage);
      && (r.None? <==> leverage <= 0)
      && (0 < leverage ==> RoundedMargin(price, quantity, leverage) == Value(r.value))
  {
    if 0 < leverage {
      QProduct(price, quantity);
      QRatio(Notional(price, quantity), leverage);
    }
  }

  /** entry * (1 - dir / leverage + dir * mmr), dir being 1 for a long and -1 for a short. */
  function ExactLiquidation(entry: int, leverage: int, dir: real, mmr: int): real
    requires 0 < leverage
  {
    Value(entry) * (1.0 - dir * (1.0 / Value(leverage)) + dir * Value(mmr))
  }

  lemma ExactScaled(entry: int, leverage: int, dir: int, mmr: int)
    requires 0 < leverage && (dir == 1 || dir == -1)
    ensures (ExactLiquidation(entry, leverage, dir as real, mmr) * 100000000.0) * (UNIT * leverage) as real
         == (entry * (UNIT * leverage - dir * (UNIT * UNIT) + dir * (mmr * leverage))) as real
  {
    var e, l, m, u, s := entry as real, leverage as real, mmr as real, 100000000.0, dir as real;
    RatioScaled(u, l);
    var z := u / l;
    assert z * l == u && 1.0 / Value(leverage) == z;
    var w := 1.0 - s * z + s * (m / u);
    assert s * z * (u * l) == s * (u * u) by { Rearranged(s, z, u, l); }
    assert s * (m / u) * (u * l) == s * (m * l) by { Cancelled(s, m, u, l); }
    assert w * (u * l) == u * l - s * (u * u) + s * (m * l);
    Distributed(e, u, w, l);
    assert (UNIT * leverage) as real == u * l && (mmr * leverage) as real == m * l;
    var n := UNIT * leverage - dir * (UNIT * UNIT) + dir * (mmr * leverage);
    assert n as real == u * l - s * (u * u) + s * (m * l);
    assert (entry * n) as real == e * n as real;
  }

  lemma Rearranged(s: real, z: real, u: real, l: real)
    requires z * l == u
    ensures s * z * (u * l) == s * (u * u)
  {
    assert z * (u * l) == (z * l) * u;
  }

  lemma Cancelled(s: real, m: real, u: real, l: real)
    requires u != 0.0
    ensures s * (m / u) * (u * l) == s * (m * l)
  {
    var x := m / u;
    assert x * u == m;
    assert x * (u * l) == (x * u) * l;
  }

  lemma Distributed(e: real, u: real, w: real, l: real)
    requires u != 0.0
    ensures ((e / u) * w * u) * (u * l) == e * (w * (u * l))
  {
    var x := e / u;
    assert x * u == e;
    assert x * w * u == e * w;
  }

  /** The integer formula is the source's, rounded by Q. */
  lemma LiquidationPriceIsRounded(entry: int, leverage: int, mmr: int)
    ensures leverage <= 0 ==>
      LiquidationPrice(entry, leverage, true, mmr) == 0 == LiquidationPrice(entry, leverage, false, mmr)
    ensures 0 < leverage ==>
      var x := ExactLiquidation(entry, leverage, 1.0, mmr);
      && Q(if x < 0.0 then 0.0 else x) == Value(LiquidationPrice(entry, leverage, true, mmr))
      && Q(ExactLiquidation(entry, leverage, -1.0, mmr)) == Value(LiquidationPrice(entry, leverage, false, mmr))
  {
    if 0 < leverage { PositiveLeverageRounded(entry, leverage, mmr); }
    hide Q, Value, ExactLiquidation;
  }

  lemma PositiveLeverageRounded(entry: int, leverage: int, mmr: int)
    requires 0 < leverage
    ensures var x := ExactLiquidation(entry, leverage, 1.0, mmr);
      Q(if x < 0.0 then 0.0 else x) == Value(LiquidationPrice(entry, leverage, true, mmr))
    ensures Q(ExactLiquidation(entry, leverage, -1.0, mmr)) == Value(LiquidationPrice(entry, leverage, false, mmr))
  {
    var d := UNIT * leverage;
    var n := entry * (UNIT * leverage - UNIT * UNIT + mmr * leverage);
    var x := ExactLiquidation(entry, leverage, 1.0, mmr);
    ExactScaled(entry, leverage, 1, mmr);
    ExactScaled(entry, leverage, -1, mmr);
    hide ExactLiquidation, Q, Value, RoundDiv;
    assert (x * 100000000.0) * d as real == n as real;
    SameSign(x * 100000000.0, d as real);
    if x < 0.0 {
      QScaled(0.0, 0, d);
    } else {
      QScaled(x, n, d);
    }
    QScaled(ExactLiquidation(entry, leverage, -1.0, mmr), entry * (UNIT * leverage + UNIT * UNIT - mmr * leverage), d);
  }

  lemma SameSign(x: real, d: real)
    requires 0.0 < d
    ensures x * d < 0.0 <==> x < 0.0
  {
  }
}
