/** The position fold against a plain cash ledger: size, entry price and realized PnL of
    a user as a fold over the signed quantities they traded, whatever the orders, margins
    and balances were. */
module PositionLedger {
  import opened Money
  import opened States
  import opened Accounts
  import opened EngineSpec

  datatype View = View(size: int, entry: int, realized: int)

  const FLAT := View(0, 0, 0)

  function ViewOf(p: Position): View { View(p.size, p.entryPrice, p.realizedPnl) }

  predicate Opposing(v: View, signed: int)
  {
    v.size != 0 && Sign(v.size) != Sign(signed)
  }

  /** Part of the position a trade closes, signed like the position. */
  function Closed(v: View, signed: int): int
  {
    Min(Abs(v.size), Abs(signed)) * Sign(v.size)
  }

  function FoldLeg(v: View, signed: int, price: int): View
    requires signed != 0
  {
    if v.size == 0 then View(signed, price, v.realized)
    else if !Opposing(v, signed) then
      View(v.size + signed, AveragePrice(v.size, v.entry, Abs(signed), price), v.realized)
    else
      View(v.size + signed,
           if v.size + signed == 0 then 0 else if Abs(v.size) < Abs(signed) then price else v.entry,
           v.realized + Pnl(v.entry, price, Closed(v, signed)))
  }

  /** What rounding adds to the ledger in one leg: the remainder of the average-price
      division, or that of the PnL division. */
  function Residue(v: View, signed: int, price: int): int
    requires signed != 0
  {
    if v.size == 0 then 0
    else if !Opposing(v, signed) then
      (v.size * v.entry + signed * price) - (v.size + signed) * FoldLeg(v, signed, price).entry
    else
      UNIT * Pnl(v.entry, price, Closed(v, signed)) - (price - v.entry) * Closed(v, signed)
  }

  /** Twice the most a residue can be: the new position size for an increase, one unit
      of account for a PnL. */
  function Slack(v: View, signed: int): nat
  {
    if v.size == 0 then 0 else if !Opposing(v, signed) then Abs(v.size + signed) else UNIT
  }

  lemma ResidueBound(v: View, signed: int, price: int)
    requires signed != 0
    ensures 2 * Abs(Residue(v, signed, price)) <= Slack(v, signed)
  {
    if v.size != 0 && !Opposing(v, signed) {
      IncreaseResidue(v, signed, price);
    } else if v.size != 0 {
      PnlResidue((price - v.entry) * Closed(v, signed), UNIT);
    }
  }

  lemma PnlResidue(n: int, d: int)
    requires 0 < d
    ensures 2 * Abs(d * RoundDiv(n, d) - n) <= d
    ensures n % d == 0 ==> d * RoundDiv(n, d) == n
  {
    RoundDivNear(n, d);
    assert d * RoundDiv(n, d) == RoundDiv(n, d) * d;
    if n % d == 0 {
      assert n == n / d * d;
      RoundDivExact(n / d, d);
    }
  }

  lemma IncreaseResidue(v: View, signed: int, price: int)
    requires v.size != 0 && signed != 0 && !Opposing(v, signed)
    ensures 2 * Abs(Residue(v, signed, price)) <= Abs(v.size + signed)
  {
    var a, c := Abs(v.size), Abs(signed);
    var n := a * v.entry + c * price;
    var e := RoundDiv(n, a + c);
    RoundDivNear(n, a + c);
    if v.size > 0 {
      assert v.size == a && signed == c;
      assert Residue(v, signed, price) == n - e * (a + c);
    } else {
      NegatedProducts(a, v.entry, c, price, e);
      assert v.size == -a && signed == -c;
      assert Residue(v, signed, price) == e * (a + c) - n;
    }
  }

  lemma NegatedProducts(a: int, x: int, c: int, y: int, e: int)
    ensures (-a) * x + (-c) * y == -(a * x + c * y)
    ensures (-a + -c) * e == -(e * (a + c))
  {
  }

  /** The ledger equation of one leg. */
  lemma LedgerLeg(v: View, signed: int, price: int)
    requires signed != 0
    ensures var w := FoldLeg(v, signed, price);
      && w.size == v.size + signed
      && UNIT * w.realized - w.size * w.entry + signed * price
           == UNIT * v.realized - v.size * v.entry + Residue(v, signed, price)
  {
    if v.size != 0 && Opposing(v, signed) {
      var c := Closed(v, signed);
      var pnl := Pnl(v.entry, price, c);
      assert UNIT * (v.realized + pnl) == UNIT * v.realized + UNIT * pnl;
      CloseAlgebra(v.size, v.entry, signed, price, c);
      if Abs(signed) <= Abs(v.size) {
        assert c == -signed;
      } else {
        assert c == v.size;
      }
    }
  }

  lemma CloseAlgebra(size: int, entry: int, signed: int, price: int, c: int)
    ensures c == -signed ==> (price - entry) * c == entry * signed - price * signed
    ensures c == size ==> (price - entry) * c == price * size - entry * size
    ensures (size + signed) * price == price * size + price * signed
    ensures (size + signed) * entry == size * entry + entry * signed
    ensures signed * price == price * signed && size * entry == entry * size
  {
  }

  /** What applyFill does to size, entry and realized PnL is FoldLeg. */
  lemma ApplyFillIsFoldLeg(a: Account, f: Fill, mmr: int)
    requires 0 < f.qty
    ensures ViewOf(ApplyFill(a, f, mmr).position) == FoldLeg(ViewOf(a.position), f.Signed(), f.price)
  {
  }

  /** A liquidation is a trade of the whole position at the mark. */
  lemma LiquidateIsFoldLeg(a: Account, mark: int)
    requires a.position.size != 0
    ensures ViewOf(Liquidate(a, mark).position) == FoldLeg(ViewOf(a.position), -a.position.size, mark)
  {
    assert Closed(ViewOf(a.position), -a.position.size) == a.position.size;
  }

  // ----- Histories -----

  predicate Traded(legs: seq<Leg>) { forall i :: 0 <= i < |legs| ==> legs[i].signed != 0 }

  /** A user's position after a history of trades, their own legs folded in order. */
  function FoldFor(u: string, legs: seq<Leg>): View
    requires Traded(legs)
  {
    if legs == [] then FLAT
    else
      var n := |legs| - 1;
      var v := FoldFor(u, legs[..n]);
      if legs[n].userId == u then FoldLeg(v, legs[n].signed, legs[n].price) else v
  }

  function SizeFor(u: string, legs: seq<Leg>): int
  {
    if legs == [] then 0
    else
      var n := |legs| - 1;
      SizeFor(u, legs[..n]) + (if legs[n].userId == u then legs[n].signed else 0)
  }

  /** Cash paid for what was bought, less cash received for what was sold. */
  function PaidFor(u: string, legs: seq<Leg>): int
  {
    if legs == [] then 0
    else
      var n := |legs| - 1;
      PaidFor(u, legs[..n]) + (if legs[n].userId == u then legs[n].signed * legs[n].price else 0)
  }

  function ResidueFor(u: string, legs: seq<Leg>): int
    requires Traded(legs)
  {
    if legs == [] then 0
    else
      var n := |legs| - 1;
      ResidueFor(u, legs[..n])
      + (if legs[n].userId == u then Residue(FoldFor(u, legs[..n]), legs[n].signed, legs[n].price) else 0)
  }

  function SlackFor(u: string, legs: seq<Leg>): nat
    requires Traded(legs)
  {
    if legs == [] then 0
    else
      var n := |legs| - 1;
      SlackFor(u, legs[..n])
      + (if legs[n].userId == u then Slack(FoldFor(u, legs[..n]), legs[n].signed) else 0)
  }

  /** The position is the net quantity, and realized PnL less the cost of the open
      position is the cash flow, up to a bounded rounding residue. */
  lemma {:induction false} LedgerRefinement(u: string, legs: seq<Leg>)
    requires Traded(legs)
    ensures var v := FoldFor(u, legs);
      && v.size == SizeFor(u, legs)
      && UNIT * v.realized - v.size * v.entry == -PaidFor(u, legs) + ResidueFor(u, legs)
      && 2 * Abs(ResidueFor(u, legs)) <= SlackFor(u, legs)
  {
    if legs != [] {
      var n := |legs| - 1;
      LedgerRefinement(u, legs[..n]);
      if legs[n].userId == u {
        LedgerLeg(FoldFor(u, legs[..n]), legs[n].signed, legs[n].price);
        ResidueBound(FoldFor(u, legs[..n]), legs[n].signed, legs[n].price);
      }
    }
  }

  /** No division of a leg leaves a remainder: exact arithmetic. */
  predicate ExactLeg(v: View, signed: int, price: int)
    requires signed != 0
  {
    if v.size == 0 then true
    else if !Opposing(v, signed) then
      (Abs(v.size) * v.entry + Abs(signed) * price) % (Abs(v.size) + Abs(signed)) == 0
    else ((price - v.entry) * Closed(v, signed)) % UNIT == 0
  }

  lemma ExactLegNoResidue(v: View, signed: int, price: int)
    requires signed != 0 && ExactLeg(v, signed, price)
    ensures Residue(v, signed, price) == 0
  {
    if v.size != 0 && !Opposing(v, signed) {
      var a, c := Abs(v.size), Abs(signed);
      var n := a * v.entry + c * price;
      PnlResidue(n, a + c);
      var e := RoundDiv(n, a + c);
      assert (a + c) * e == e * (a + c);
      if v.size > 0 {
        assert Residue(v, signed, price) == n - e * (a + c);
      } else {
        NegatedProducts(a, v.entry, c, price, e);
        assert v.size == -a && signed == -c;
        assert Residue(v, signed, price) == e * (a + c) - n;
      }
    } else if v.size != 0 {
      PnlResidue((price - v.entry) * Closed(v, signed), UNIT);
    }
  }

  predicate ExactFor(u: string, legs: seq<Leg>)
    requires Traded(legs)
  {
    legs == [] ||
    var n := |legs| - 1;
    && ExactFor(u, legs[..n])
    && (legs[n].userId == u ==> ExactLeg(FoldFor(u, legs[..n]), legs[n].signed, legs[n].price))
  }

  /** In exact arithmetic the cash identity holds exactly. */
  lemma {:induction false} ExactLedger(u: string, legs: seq<Leg>)
    requires Traded(legs) && ExactFor(u, legs)
    ensures ResidueFor(u, legs) == 0
  {
    if legs != [] {
      var n := |legs| - 1;
      ExactLedger(u, legs[..n]);
      if legs[n].userId == u {
        ExactLegNoResidue(FoldFor(u, legs[..n]), legs[n].signed, legs[n].price);
      }
    }
  }

  // ----- Entry price -----

  /** Lowest and highest price paid on the open side since it was opened or flipped. */
  datatype Range = Range(size: int, lo: int, hi: int)

  function RangeFor(u: string, legs: seq<Leg>): Range
  {
    if legs == [] then Range(0, 0, 0)
    else
      var n := |legs| - 1;
      var r := RangeFor(u, legs[..n]);
      var l := legs[n];
      if l.userId != u then r
      else if r.size == 0 || (Sign(r.size) != Sign(l.signed) && Abs(r.size) < Abs(l.signed)) then
        Range(r.size + l.signed, l.price, l.price)
      else if Sign(r.size) == Sign(l.signed) then
        Range(r.size + l.signed, Min(r.lo, l.price), Max(r.hi, l.price))
      else r.(size := r.size + l.signed)
  }

  lemma {:induction false} EntryInRange(u: string, legs: seq<Leg>)
    requires Traded(legs)
    ensures var v, r := FoldFor(u, legs), RangeFor(u, legs);
      v.size == r.size && (v.size != 0 ==> r.lo <= v.entry <= r.hi)
  {
    if legs != [] {
      var n := |legs| - 1;
      EntryInRange(u, legs[..n]);
      var v := FoldFor(u, legs[..n]);
      if legs[n].userId == u && v.size != 0 && !Opposing(v, legs[n].signed) {
        AverageBetween(v.size, v.entry, Abs(legs[n].signed), legs[n].price);
      }
    }
  }

  /** A partial reduction leaves the entry price alone. */
  lemma ReductionKeepsEntry(v: View, signed: int, price: int)
    requires signed != 0 && Opposing(v, signed) && Abs(signed) < Abs(v.size)
    ensures FoldLeg(v, signed, price).entry == v.entry
  {
  }
}
