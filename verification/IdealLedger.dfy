/** The position fold with the rounding function as identity, over the reals: on the trades
    of every run it is exactly a cash ledger, and the market is exactly zero-sum. */
module IdealLedger {
  import opened Money
  import opened States
  import opened EngineSpec
  import opened Invariants
  import opened PositionLedger
  import opened ZeroSum

  /** Sizes are whole units; entry price and realized PnL are exact. */
  datatype Ideal = Ideal(size: int, entry: real, realized: real)

  const UNIT_REAL: real := 100000000.0

  predicate IdealOpposing(v: Ideal, signed: int) { v.size != 0 && Sign(v.size) != Sign(signed) }

  function IdealClosed(v: Ideal, signed: int): int { Min(Abs(v.size), Abs(signed)) * Sign(v.size) }

  /** One fill, without rounding. */
  function IdealLeg(v: Ideal, signed: int, price: int): Ideal
    requires signed != 0
  {
    var p := price as real;
    if v.size == 0 then Ideal(signed, p, v.realized)
    else if !IdealOpposing(v, signed) then
      var a, c := Abs(v.size) as real, Abs(signed) as real;
      Ideal(v.size + signed, (a * v.entry + c * p) / (a + c), v.realized)
    else
      Ideal(v.size + signed,
            if v.size + signed == 0 then 0.0 else if Abs(v.size) < Abs(signed) then p else v.entry,
            v.realized + (p - v.entry) * IdealClosed(v, signed) as real / UNIT_REAL)
  }

  function IdealFor(u: string, legs: seq<Leg>): Ideal
    requires Traded(legs)
  {
    if legs == [] then Ideal(0, 0.0, 0.0)
    else
      var n := |legs| - 1;
      var v := IdealFor(u, legs[..n]);
      if legs[n].userId == u then IdealLeg(v, legs[n].signed, legs[n].price) else v
  }

  /** Realized PnL less the cost of the open position, in squared units. */
  function CashOf(v: Ideal): real { UNIT_REAL * v.realized - v.size as real * v.entry }

  lemma IncreaseExact(v: Ideal, signed: int, price: int)
    requires signed != 0 && v.size != 0 && !IdealOpposing(v, signed)
    ensures CashOf(IdealLeg(v, signed, price)) == CashOf(v) - (signed * price) as real
  {
    var a, c, p := Abs(v.size) as real, Abs(signed) as real, price as real;
    var e := (a * v.entry + c * p) / (a + c);
    assert e * (a + c) == a * v.entry + c * p;
    var s: real := if 0 < v.size then 1.0 else -1.0;
    assert v.size as real == s * a && signed as real == s * c;
    Increased(s, a, c, e, v.entry, p);
    assert (signed * price) as real == signed as real * p;
    assert (v.size + signed) as real == s * (a + c);
  }

  lemma Increased(s: real, a: real, c: real, e: real, x: real, p: real)
    requires e * (a + c) == a * x + c * p
    ensures s * (a + c) * e == s * a * x + s * c * p
  {
    assert s * (a + c) * e == s * (e * (a + c));
  }

  lemma OpposeExact(v: Ideal, signed: int, price: int)
    requires signed != 0 && v.size != 0 && IdealOpposing(v, signed)
    ensures CashOf(IdealLeg(v, signed, price)) == CashOf(v) - (signed * price) as real
  {
    var p, k, z, g := price as real, IdealClosed(v, signed), v.size as real, signed as real;
    var c := k as real;
    assert UNIT_REAL * ((p - v.entry) * c / UNIT_REAL) == (p - v.entry) * c;
    assert (signed * price) as real == g * p;
    assert (v.size + signed) as real == z + g;
    if Abs(signed) <= Abs(v.size) {
      assert k == -signed;
    } else {
      assert k == v.size;
    }
    Closing(p, v.entry, c, z, g);
  }

  lemma Closing(p: real, e: real, c: real, z: real, g: real)
    ensures c == -g ==> (p - e) * c - (z + g) * e == -z * e - g * p
    ensures c == z ==> (p - e) * c - (z + g) * p == -z * e - g * p
    ensures z + g == 0.0 && c == -g ==> (p - e) * c == -z * e - g * p
  {
  }

  /** Without rounding the position fold is a cash ledger, exactly, for every history. */
  lemma {:induction false} IdealIsCashLedger(u: string, legs: seq<Leg>)
    requires Traded(legs)
    ensures var v := IdealFor(u, legs); v.size == SizeFor(u, legs) && CashOf(v) == -(PaidFor(u, legs) as real)
  {
    if legs != [] {
      var n := |legs| - 1;
      IdealIsCashLedger(u, legs[..n]);
      var v, l := IdealFor(u, legs[..n]), legs[n];
      if l.userId == u && v.size != 0 {
        if IdealOpposing(v, l.signed) { OpposeExact(v, l.signed, l.price); } else { IncreaseExact(v, l.signed, l.price); }
        hide CashOf;
      }
    }
  }

  /** Equity of all users at price m, in squared units, positions folded without rounding. */
  function SumIdeal(users: seq<string>, legs: seq<Leg>, m: int): real
    requires Traded(legs)
  {
    if users == [] then 0.0
    else
      var v := IdealFor(users[0], legs);
      SumIdeal(users[1..], legs, m) + UNIT_REAL * v.realized + (m as real - v.entry) * v.size as real
  }

  lemma AddEquity(sum: real, v: Ideal, m: int, t: int, p: int, q: int)
    requires CashOf(v) == -(p as real) && sum == (m * t - q) as real
    ensures sum + UNIT_REAL * v.realized + (m as real - v.entry) * v.size as real == (m * (t + v.size) - (q + p)) as real
  {
    var z, r := v.size as real, m as real;
    assert (r - v.entry) * z == r * z - z * v.entry;
    assert (m * v.size) as real == r * z;
    assert m * (t + v.size) == m * t + m * v.size;
  }

  lemma SumUnfold(users: seq<string>, legs: seq<Leg>, m: int)
    requires Traded(legs) && users != []
    ensures var v := IdealFor(users[0], legs);
      SumIdeal(users, legs, m)
        == SumIdeal(users[1..], legs, m) + UNIT_REAL * v.realized + (m as real - v.entry) * v.size as real
    ensures SumSizeFor(users, legs) == SumSizeFor(users[1..], legs) + SizeFor(users[0], legs)
    ensures SumPaidFor(users, legs) == SumPaidFor(users[1..], legs) + PaidFor(users[0], legs)
  {
    hide IdealFor, SizeFor, PaidFor;
  }

  lemma {:induction false} SumOfIdeals(users: seq<string>, legs: seq<Leg>, m: int)
    requires Traded(legs)
    ensures SumIdeal(users, legs, m) == (m * SumSizeFor(users, legs) - SumPaidFor(users, legs)) as real
  {
    hide *;
    if users == [] {
      NoIdeals(users, legs, m);
    } else {
      SumOfIdeals(users[1..], legs, m);
      IdealIsCashLedger(users[0], legs);
      SumUnfold(users, legs, m);
      var v, t, q := IdealFor(users[0], legs), SumSizeFor(users[1..], legs), SumPaidFor(users[1..], legs);
      AddEquity(SumIdeal(users[1..], legs, m), v, m, t, PaidFor(users[0], legs), q);
      SameNet(m, t + v.size, SumSizeFor(users, legs), q + PaidFor(users[0], legs), SumPaidFor(users, legs));
    }
  }

  lemma NoIdeals(users: seq<string>, legs: seq<Leg>, m: int)
    requires Traded(legs) && users == []
    ensures SumIdeal(users, legs, m) == (m * SumSizeFor(users, legs) - SumPaidFor(users, legs)) as real
  {
    SameNet(m, 0, SumSizeFor(users, legs), 0, SumPaidFor(users, legs));
  }

  lemma SameNet(m: int, a: int, b: int, p: int, q: int)
    requires a == b && p == q
    ensures (m * a - p) as real == (m * b - q) as real
  {
  }

  /** In exact arithmetic the market is zero-sum over every run, at every price m: the
      equity of all users and of the house, which takes over liquidated positions, is 0. */
  lemma MarketIsIdeallyZeroSum(market: MarketConfig, es: seq<Input>, m: int)
    requires AllAdmitted(es)
    ensures Wf(CreateState(market))
    ensures var s, legs := Run(CreateState(market), es), RunLegs(CreateState(market), es);
      && Traded(legs)
      && SumIdeal(s.positions.keys, legs, m) + (m * HouseSize(legs) - HouseCost(legs)) as real == 0.0
  {
    MarketIsZeroSum(market, es, m);
    RunRecords(market, es);
    RunBalanced(market, es);
    var s, legs := Run(CreateState(market), es), RunLegs(CreateState(market), es);
    var users := s.positions.keys;
    SumOfIdeals(users, legs, m);
    SumsExchange(users, legs);
    NegatedProduct(m, SumSizeFor(users, legs), HouseSize(legs));
  }

  // ----- The rounded fold, where nothing is rounded -----

  function IdealOf(v: View): Ideal { Ideal(v.size, v.entry as real, v.realized as real) }

  lemma WholeQuotient(n: int, d: int)
    requires 0 < d && n % d == 0
    ensures n as real / d as real == RoundDiv(n, d) as real
  {
    var r := n / d;
    assert n == r * d;
    RoundDivExact(r, d);
    var x := n as real / d as real;
    assert x * d as real == n as real && n as real == r as real * d as real;
    SameFactor(x, r as real, d as real);
  }

  lemma SameFactor(x: real, y: real, d: real)
    requires 0.0 < d && x * d == y * d
    ensures x == y
  {
    if x < y { RatioAboveStrict(y, d, x); }
    if y < x { RatioAboveStrict(x, d, y); }
  }

  lemma ExactIncrease(v: View, signed: int, price: int)
    requires signed != 0 && v.size != 0 && !Opposing(v, signed) && ExactLeg(v, signed, price)
    ensures IdealLeg(IdealOf(v), signed, price) == IdealOf(FoldLeg(v, signed, price))
  {
    var a, c := Abs(v.size), Abs(signed);
    WholeQuotient(a * v.entry + c * price, a + c);
    WeightedReal(a, v.entry, c, price);
    hide RoundDiv, Abs, ExactLeg;
  }

  lemma WeightedReal(a: int, x: int, c: int, y: int)
    ensures (a * x + c * y) as real == a as real * x as real + c as real * y as real
    ensures (a + c) as real == a as real + c as real
  {
  }

  lemma ExactOppose(v: View, signed: int, price: int)
    requires signed != 0 && v.size != 0 && Opposing(v, signed) && ExactLeg(v, signed, price)
    ensures IdealLeg(IdealOf(v), signed, price) == IdealOf(FoldLeg(v, signed, price))
  {
    var k := Closed(v, signed);
    WholeQuotient((price - v.entry) * k, UNIT);
    PnlReal(price, v.entry, k);
    assert k == IdealClosed(IdealOf(v), signed);
    hide RoundDiv, Closed, IdealClosed, ExactLeg;
  }

  lemma PnlReal(p: int, e: int, k: int)
    ensures ((p - e) * k) as real == (p as real - e as real) * k as real
  {
  }

  lemma ExactStep(v: View, signed: int, price: int)
    requires signed != 0 && ExactLeg(v, signed, price)
    ensures IdealLeg(IdealOf(v), signed, price) == IdealOf(FoldLeg(v, signed, price))
  {
    if v.size != 0 {
      hide IdealLeg, IdealOf, FoldLeg, ExactLeg;
      if Opposing(v, signed) { ExactOppose(v, signed, price); } else { ExactIncrease(v, signed, price); }
    }
  }

  /** Where no division of a user's trades leaves a remainder, the engine's fold is the
      ideal one. */
  lemma {:induction false} ExactFoldIsIdeal(u: string, legs: seq<Leg>)
    requires Traded(legs) && ExactFor(u, legs)
    ensures IdealFor(u, legs) == IdealOf(FoldFor(u, legs))
  {
    if legs != [] {
      var n := |legs| - 1;
      ExactFoldIsIdeal(u, legs[..n]);
      if legs[n].userId == u { ExactStep(FoldFor(u, legs[..n]), legs[n].signed, legs[n].price); }
      hide FoldLeg, IdealLeg, IdealOf;
    }
  }
}
