/** One user's money: the balance operations and the fold of one fill leg into a
    balance and a netted position. */
module Accounts {
  import opened Money
  import opened States
  import Risk

  datatype Account = Account(balance: Balance, position: Position)

  /** The tolerance of 1e-6 in the free-balance and margin checks. */
  const TOLERANCE := 100

  function Credit(b: Balance, amount: int): Balance
  {
    b.(total := b.total + amount, free := b.free + amount)
  }

  predicate CanLock(b: Balance, amount: int)
  {
    amount <= b.free + TOLERANCE
  }

  function Lock(b: Balance, amount: int): Balance
  {
    b.(free := b.free - amount, locked := b.locked + amount)
  }

  /** What a release of `amount` really moves: never more than is locked. */
  function Moved(b: Balance, amount: int): int
  {
    Min(b.locked, Max(0, amount))
  }

  function Release(b: Balance, amount: int): Balance
  {
    b.(locked := b.locked - Moved(b, amount), free := b.free + Moved(b, amount))
  }

  function ApplyPnl(b: Balance, pnl: int): Balance
  {
    b.(total := b.total + pnl, free := b.free + pnl)
  }

  function LiqPriceOf(p: Position, mmr: int): int
  {
    if p.size == 0 then 0 else Risk.LiquidationPrice(p.entryPrice, p.leverage, 0 < p.size, mmr)
  }

  function RefreshLiq(p: Position, mmr: int): Position
  {
    p.(liqPrice := LiqPriceOf(p, mmr))
  }

  datatype Fill = Fill(side: Side, price: int, qty: int, margin: int, leverage: int) {
    function Signed(): int { if side.Bid? then qty else -qty }
  }

  function Open(p: Position, f: Fill, mmr: int): Position
  {
    RefreshLiq(p.(size := f.Signed(), entryPrice := f.price, margin := f.margin, leverage := f.leverage), mmr)
  }

  /** Volume-weighted average of the old entry price and the fill price. */
  function AveragePrice(size: int, entry: int, qty: int, price: int): int
    requires 0 < qty
  {
    RoundDiv(Abs(size) * entry + qty * price, Abs(size) + qty)
  }

  function Increase(p: Position, f: Fill, mmr: int): Position
    requires 0 < f.qty
  {
    RefreshLiq(p.(entryPrice := AveragePrice(p.size, p.entryPrice, f.qty, f.price),
                  size := p.size + f.Signed(), margin := p.margin + f.margin, leverage := f.leverage), mmr)
  }

  function ClosedQty(p: Position, f: Fill): int { Min(Abs(p.size), f.qty) }

  /** PnL of closing `closed` (signed like the position) at `price`. */
  function Pnl(entry: int, price: int, closed: int): int
  {
    RoundDiv((price - entry) * closed, UNIT)
  }

  function FillPnl(p: Position, f: Fill): int
  {
    Pnl(p.entryPrice, f.price, ClosedQty(p, f) * Sign(p.size))
  }

  /** Share of the position margin that backs the closed quantity. */
  function MarginFreed(p: Position, f: Fill): int
    requires p.size != 0
  {
    RoundDiv(ClosedQty(p, f) * p.margin, Abs(p.size))
  }

  /** Share of the fill's own margin that backs no open position. */
  function FillMarginFreed(p: Position, f: Fill): int
    requires 0 < f.qty
  {
    RoundDiv(ClosedQty(p, f) * f.margin, f.qty)
  }

  /** Reduce, close or flip. */
  function Oppose(a: Account, f: Fill, mmr: int): Account
    requires a.position.size != 0 && 0 < f.qty
  {
    var p := a.position;
    var freed, back, pnl := MarginFreed(p, f), FillMarginFreed(p, f), FillPnl(p, f);
    var b := Release(ApplyPnl(Release(a.balance, freed), pnl), back);
    var p1 := p.(realizedPnl := p.realizedPnl + pnl, margin := p.margin - freed, size := p.size + f.Signed());
    if p1.size == 0 then
      Account(Release(b, p1.margin), p1.(entryPrice := 0, margin := 0, liqPrice := 0))
    else if Abs(p.size) < f.qty then
      Account(b, RefreshLiq(p1.(entryPrice := f.price, margin := f.margin - back, leverage := f.leverage), mmr))
    else
      Account(b, RefreshLiq(p1, mmr))
  }

  /** `applyFill` on the account of the user it concerns. */
  function ApplyFill(a: Account, f: Fill, mmr: int): Account
    requires 0 < f.qty
  {
    if a.position.size == 0 then a.(position := Open(a.position, f, mmr))
    else if Sign(a.position.size) == Sign(f.Signed()) then a.(position := Increase(a.position, f, mmr))
    else Oppose(a, f, mmr)
  }

  function MarkPosition(p: Position, mark: int): Position
  {
    p.(markPrice := mark, unrealizedPnl := if p.size == 0 then 0 else Pnl(p.entryPrice, mark, p.size))
  }

  predicate Underwater(p: Position, mark: int)
  {
    p.size != 0 && Risk.IsLiquidatable(mark, p.liqPrice, 0 < p.size)
  }

  /** Forced close at the mark. */
  function Liquidate(a: Account, mark: int): Account
  {
    var p := a.position;
    var pnl := Pnl(p.entryPrice, mark, p.size);
    Account(
      ApplyPnl(Release(a.balance, p.margin), pnl),
      p.(realizedPnl := p.realizedPnl + pnl, size := 0, entryPrice := 0, margin := 0, liqPrice := 0,
         unrealizedPnl := 0))
  }

  // ----- What every operation keeps -----

  /** Consistency of one account: locked collateral is part of the total, margins and
      locked amounts are not negative, a flat position carries nothing, and the cached
      liquidation price is the one its entry and leverage determine. */
  predicate Sound(a: Account, mmr: int)
  {
    var p := a.position;
    && a.balance.total == a.balance.free + a.balance.locked
    && 0 <= a.balance.locked
    && 0 <= p.margin && 0 <= p.entryPrice && 0 < p.leverage
    && (p.size == 0 ==> p.entryPrice == 0 && p.margin == 0)
    && p.liqPrice == LiqPriceOf(p, mmr)
  }

  lemma AverageBetween(size: int, entry: int, qty: int, price: int)
    requires 0 < qty
    ensures Min(entry, price) <= AveragePrice(size, entry, qty, price) <= Max(entry, price)
  {
    var a, lo, hi := Abs(size), Min(entry, price), Max(entry, price);
    WeightedBetween(a, qty, lo, entry, hi);
    WeightedBetween(qty, a, lo, price, hi);
    RoundDivBetween(lo, a * entry + qty * price, hi, a + qty);
  }

  lemma WeightedBetween(a: int, c: int, lo: int, x: int, hi: int)
    requires 0 <= a && lo <= x <= hi
    ensures lo * a <= a * x <= hi * a
    ensures lo * (a + c) == lo * a + lo * c && hi * (a + c) == hi * a + hi * c
  {
    assert a * (x - lo) >= 0 && a * (hi - x) >= 0;
    assert a * (x - lo) == a * x - lo * a && a * (hi - x) == hi * a - a * x;
  }

  /** Freed margins are proper shares: nothing negative is released, and what closes the
      whole position (or uses the whole fill) frees its whole margin. */
  lemma FreedBounds(p: Position, f: Fill)
    requires p.size != 0 && 0 < f.qty && 0 <= p.margin && 0 <= f.margin
    ensures 0 <= MarginFreed(p, f) <= p.margin
    ensures 0 <= FillMarginFreed(p, f) <= f.margin
    ensures Abs(p.size) <= f.qty ==> MarginFreed(p, f) == p.margin
    ensures f.qty <= Abs(p.size) ==> FillMarginFreed(p, f) == f.margin
  {
    ShareBounds(ClosedQty(p, f), Abs(p.size), p.margin);
    ShareBounds(ClosedQty(p, f), f.qty, f.margin);
  }

  lemma ApplyFillSound(a: Account, f: Fill, mmr: int)
    requires Sound(a, mmr)
    requires 0 < f.qty && 0 <= f.margin && 0 <= f.price && 0 < f.leverage
    ensures Sound(ApplyFill(a, f, mmr), mmr)
    ensures ApplyFill(a, f, mmr).balance.total - ApplyFill(a, f, mmr).position.realizedPnl
         == a.balance.total - a.position.realizedPnl
  {
    var p := a.position;
    if p.size == 0 {
    } else if Sign(p.size) == Sign(f.Signed()) {
      AverageBetween(p.size, p.entryPrice, f.qty, f.price);
    } else {
      FreedBounds(p, f);
    }
  }

  lemma LiquidateSound(a: Account, mark: int, mmr: int)
    requires Sound(a, mmr)
    ensures Sound(Liquidate(a, mark), mmr)
    ensures Liquidate(a, mark).balance.total - Liquidate(a, mark).position.realizedPnl
         == a.balance.total - a.position.realizedPnl
  {
  }

  // ----- Locked collateral against the obligations it backs -----

  /** The gap between locked collateral and obligations either stays, or moves up
      towards zero without passing it. */
  predicate Shrinks(before: real, after: real)
  {
    after == before || before <= after <= 0.0
  }

  function Gap(b: Balance, backed: int, rest: real): real
  {
    b.locked as real - backed as real - rest
  }

  /** A release of part of the obligations keeps the gap, or shrinks it when clamped. */
  lemma ReleaseShrinks(b: Balance, amount: int, backed: int, rest: real)
    requires 0 <= b.locked && 0 <= amount <= backed && 0.0 <= rest
    ensures Shrinks(Gap(b, backed, rest), Gap(Release(b, amount), backed - amount, rest))
  {
  }

  lemma ShrinksTransitive(x: real, y: real, z: real)
    requires Shrinks(x, y) && Shrinks(y, z)
    ensures Shrinks(x, z)
  {
  }

  /** Folding a fill moves its margin into the position or releases it: in every branch
      the gap against position margin, fill margin and all other obligations `rest`
      stays or shrinks. */
  lemma ApplyFillShrinksGap(a: Account, f: Fill, mmr: int, rest: real)
    requires Sound(a, mmr) && 0.0 <= rest
    requires 0 < f.qty && 0 <= f.margin
    ensures var r := ApplyFill(a, f, mmr);
      Shrinks(Gap(a.balance, a.position.margin + f.margin, rest), Gap(r.balance, r.position.margin, rest))
  {
    var p := a.position;
    if p.size != 0 && Sign(p.size) != Sign(f.Signed()) {
      FreedBounds(p, f);
      var freed, back, pnl := MarginFreed(p, f), FillMarginFreed(p, f), FillPnl(p, f);
      var m := p.margin + f.margin;
      var b1 := Release(a.balance, freed);
      var b2 := ApplyPnl(b1, pnl);
      var b3 := Release(b2, back);
      ReleaseShrinks(a.balance, freed, m, rest);
      ReleaseShrinks(b2, back, m - freed, rest);
      ShrinksTransitive(Gap(a.balance, m, rest), Gap(b1, m - freed, rest), Gap(b3, m - freed - back, rest));
      if p.size + f.Signed() == 0 {
        ReleaseShrinks(b3, p.margin - freed, m - freed - back, rest);
      }
    }
  }
}
