/** What one fill does to an account, told from the account before and after: sizes, entry
    prices, and margins that stay in proportion to the size they back. */
module MarginShares {
  import opened Money
  import opened States
  import opened Accounts

  /** `kept` is the share part / whole of `amount`, to within half a unit. */
  predicate InProportion(kept: int, amount: int, part: int, whole: int)
  {
    2 * Abs(kept * whole - amount * part) <= whole
  }

  predicate Opposing(p: Position, f: Fill)
  {
    if f.side.Bid? then p.size < 0 else 0 < p.size
  }

  /** What n contracts bought at `entry` gain at `price`. */
  function Gain(entry: int, price: int, n: int): real
  {
    Q((Value(price) - Value(entry)) * Value(n))
  }

  /** Money moves by what `closed` contracts gain or lose against the entry price, and of
      `released` collateral as much as is locked becomes free. */
  ghost predicate Settles(a: Account, f: Fill, r: Account, closed: int, released: int)
  {
    var pnl, moved := r.position.realizedPnl - a.position.realizedPnl, Min(a.balance.locked, released);
    && Value(pnl) == Gain(a.position.entryPrice, f.price, closed)
    && r.balance == Balance(a.balance.total + pnl, a.balance.free + pnl + moved, a.balance.locked - moved)
  }

  lemma RestInProportion(part: int, whole: int, amount: int)
    requires 0 < whole
    ensures InProportion(amount - RoundDiv(part * amount, whole), amount, whole - part, whole)
  {
    var r := RoundDiv(part * amount, whole);
    RoundDivNear(part * amount, whole);
    assert (amount - r) * whole - amount * (whole - part) == part * amount - r * whole;
  }

  /** The quantity closed, signed like the position. */
  function Closing(p: Position, f: Fill): int
  {
    if 0 < p.size then Min(p.size, f.qty) else Max(p.size, -f.qty)
  }

  lemma PnlIs(p: Position, f: Fill)
    requires Opposing(p, f) && 0 < f.qty
    ensures FillPnl(p, f) == Pnl(p.entryPrice, f.price, Closing(p, f))
  {
    hide Pnl;
    if 0 < p.size { assert ClosedQty(p, f) * 1 == Closing(p, f); } else { assert ClosedQty(p, f) * -1 == Closing(p, f); }
  }

  lemma DifferenceOf(a: int, b: int)
    ensures Value(a - b) == Value(a) - Value(b)
  {
  }

  /** Equal amounts round alike. */
  lemma RoundsAlike(x: real, y: real)
    requires x == y
    ensures Q(x) == Q(y)
  {
    hide Q;
  }

  lemma GainOf(entry: int, price: int, d: int, n: int)
    requires Value(d) == Value(price) - Value(entry)
    ensures Value(RoundDiv(d * n, UNIT)) == Gain(entry, price, n)
  {
    hide Q, Value, RoundDiv;
    QProduct(d, n);
    RoundsAlike(Value(d) * Value(n), (Value(price) - Value(entry)) * Value(n));
  }

  lemma GainIs(entry: int, price: int, n: int)
    ensures Value(Pnl(entry, price, n)) == Gain(entry, price, n)
  {
    hide Gain, Value, RoundDiv;
    DifferenceOf(price, entry);
    GainOf(entry, price, price - entry, n);
  }

  lemma TwoReleases(b: Balance, x: int, pnl: int, y: int)
    requires 0 <= b.locked && 0 <= x && 0 <= y
    ensures var moved := Min(b.locked, x + y);
      Release(ApplyPnl(Release(b, x), pnl), y) == Balance(b.total + pnl, b.free + pnl + moved, b.locked - moved)
  {
  }

  /** The parts of an opposing fill, for proofs that hide its definition. */
  lemma OpposedIs(a: Account, f: Fill, mmr: int)
    requires Opposing(a.position, f) && 0 < f.qty
    ensures var p, r := a.position, ApplyFill(a, f, mmr);
      var freed, back, pnl := MarginFreed(p, f), FillMarginFreed(p, f), FillPnl(p, f);
      var b := Release(ApplyPnl(Release(a.balance, freed), pnl), back);
      && r.position.size == p.size + (if f.side.Bid? then f.qty else -f.qty)
      && r.position.realizedPnl == p.realizedPnl + pnl
      && (f.qty < Abs(p.size) ==>
            && r.balance == b && Abs(r.position.size) == Abs(p.size) - f.qty
            && r.position.margin == p.margin - freed
            && r.position.entryPrice == p.entryPrice && r.position.leverage == p.leverage)
      && (f.qty == Abs(p.size) ==>
            && r.balance == Release(b, p.margin - freed)
            && r.position == p.(size := 0, entryPrice := 0, margin := 0, liqPrice := 0,
                                realizedPnl := p.realizedPnl + pnl))
      && (Abs(p.size) < f.qty ==>
            && r.balance == b && Abs(r.position.size) == f.qty - Abs(p.size)
            && r.position.margin == f.margin - back
            && r.position.entryPrice == f.price && r.position.leverage == f.leverage)
  {
    hide RoundDiv, MarginFreed, FillMarginFreed, FillPnl, Release, ApplyPnl, LiqPriceOf;
  }

  lemma SettledIs(a: Account, f: Fill, r: Account, freed: int, back: int)
    requires Opposing(a.position, f) && 0 < f.qty && 0 <= a.balance.locked && 0 <= freed && 0 <= back
    requires r.position.realizedPnl == a.position.realizedPnl + FillPnl(a.position, f)
    requires r.balance == Release(ApplyPnl(Release(a.balance, freed), FillPnl(a.position, f)), back)
    ensures Settles(a, f, r, Closing(a.position, f), freed + back)
  {
    PnlIs(a.position, f);
    GainIs(a.position.entryPrice, f.price, Closing(a.position, f));
    TwoReleases(a.balance, freed, FillPnl(a.position, f), back);
    hide Gain, Value, Pnl, FillPnl, Release, ApplyPnl, Closing, Opposing;
  }

  lemma ReducedShares(p: Position, f: Fill)
    requires p.size != 0 && 0 < f.qty < Abs(p.size) && 0 <= p.margin && 0 <= f.margin
    ensures 0 <= MarginFreed(p, f) && FillMarginFreed(p, f) == f.margin
    ensures InProportion(p.margin - MarginFreed(p, f), p.margin, Abs(p.size) - f.qty, Abs(p.size))
  {
    FreedBounds(p, f);
    RestInProportion(f.qty, Abs(p.size), p.margin);
    hide InProportion;
  }

  lemma FlippedShares(p: Position, f: Fill)
    requires p.size != 0 && Abs(p.size) < f.qty && 0 <= p.margin && 0 <= f.margin
    ensures MarginFreed(p, f) == p.margin && 0 <= FillMarginFreed(p, f)
    ensures InProportion(f.margin - FillMarginFreed(p, f), f.margin, f.qty - Abs(p.size), f.qty)
  {
    FreedBounds(p, f);
    RestInProportion(Abs(p.size), f.qty, f.margin);
    hide InProportion;
  }

  lemma NothingReleased(b: Balance)
    requires 0 <= b.locked
    ensures Release(b, 0) == b
  {
  }

  /** Opening takes over the fill as it is. */
  lemma Opened(a: Account, f: Fill, mmr: int)
    requires a.position.size == 0 && 0 < f.qty
    ensures var r := ApplyFill(a, f, mmr);
      && r.balance == a.balance && r.position.realizedPnl == a.position.realizedPnl
      && r.position.size == (if f.side.Bid? then f.qty else -f.qty)
      && r.position.entryPrice == f.price && r.position.margin == f.margin && r.position.leverage == f.leverage
  {
  }

  /** Adding averages the entry price by volume. */
  lemma Added(a: Account, f: Fill, mmr: int)
    requires a.position.size != 0 && !Opposing(a.position, f) && 0 < f.qty
    ensures var p, r := a.position, ApplyFill(a, f, mmr);
      && r.balance == a.balance && r.position.realizedPnl == p.realizedPnl
      && r.position.size == p.size + (if f.side.Bid? then f.qty else -f.qty)
      && Abs(r.position.size) == Abs(p.size) + f.qty
      && r.position.margin == p.margin + f.margin && r.position.leverage == f.leverage
      && Value(r.position.entryPrice)
         == Q((Value(Abs(p.size)) * Value(p.entryPrice) + Value(f.qty) * Value(f.price))
              / (Value(Abs(p.size)) + Value(f.qty)))
  {
    QAverage(Abs(a.position.size), a.position.entryPrice, f.qty, f.price);
    hide Q, Value, RoundDiv;
  }

  /** Reducing keeps entry price and leverage, and margin in proportion to the size left;
      the rest of the margin and the fill's own margin are released. */
  lemma Reduced(a: Account, f: Fill, mmr: int)
    requires 0 <= a.balance.locked && 0 <= a.position.margin && 0 < f.qty && 0 <= f.margin
    requires Opposing(a.position, f) && f.qty < Abs(a.position.size)
    ensures var p, r := a.position, ApplyFill(a, f, mmr);
      && r.position.size == p.size + (if f.side.Bid? then f.qty else -f.qty)
      && Abs(r.position.size) == Abs(p.size) - f.qty
      && r.position.entryPrice == p.entryPrice && r.position.leverage == p.leverage
      && InProportion(r.position.margin, p.margin, Abs(r.position.size), Abs(p.size))
      && Settles(a, f, r, if f.side.Bid? then -f.qty else f.qty, p.margin - r.position.margin + f.margin)
  {
    var p := a.position;
    OpposedIs(a, f, mmr);
    ReducedShares(p, f);
    SettledIs(a, f, ApplyFill(a, f, mmr), MarginFreed(p, f), FillMarginFreed(p, f));
    hide ApplyFill, MarginFreed, FillMarginFreed, FillPnl, InProportion, Release, ApplyPnl, Settles;
  }

  /** Closing leaves nothing and releases everything. */
  lemma Closed(a: Account, f: Fill, mmr: int)
    requires 0 <= a.balance.locked && 0 <= a.position.margin && 0 < f.qty && 0 <= f.margin
    requires Opposing(a.position, f) && f.qty == Abs(a.position.size)
    ensures var p, r := a.position, ApplyFill(a, f, mmr);
      && r.position.size == 0 && r.position.entryPrice == 0 && r.position.margin == 0 && r.position.liqPrice == 0
      && r.position.leverage == p.leverage
      && Settles(a, f, r, p.size, p.margin + f.margin)
  {
    var p := a.position;
    OpposedIs(a, f, mmr);
    FreedBounds(p, f);
    NothingReleased(Release(ApplyPnl(Release(a.balance, p.margin), FillPnl(p, f)), f.margin));
    SettledIs(a, f, ApplyFill(a, f, mmr), p.margin, f.margin);
    hide ApplyFill, MarginFreed, FillMarginFreed, FillPnl, InProportion, Release, ApplyPnl, Settles;
  }

  /** Flipping opens the leftover at the fill's price and leverage, with the fill's margin
      in proportion to the leftover; everything else is released. */
  lemma Flipped(a: Account, f: Fill, mmr: int)
    requires 0 <= a.balance.locked && 0 <= a.position.margin && 0 < f.qty && 0 <= f.margin
    requires Opposing(a.position, f) && Abs(a.position.size) < f.qty
    ensures var p, r := a.position, ApplyFill(a, f, mmr);
      && r.position.size == p.size + (if f.side.Bid? then f.qty else -f.qty)
      && Abs(r.position.size) == f.qty - Abs(p.size)
      && r.position.entryPrice == f.price && r.position.leverage == f.leverage
      && InProportion(r.position.margin, f.margin, Abs(r.position.size), f.qty)
      && Settles(a, f, r, p.size, p.margin + f.margin - r.position.margin)
  {
    var p := a.position;
    OpposedIs(a, f, mmr);
    FlippedShares(p, f);
    SettledIs(a, f, ApplyFill(a, f, mmr), MarginFreed(p, f), FillMarginFreed(p, f));
    hide ApplyFill, MarginFreed, FillMarginFreed, FillPnl, InProportion, Release, ApplyPnl, Settles;
  }
}
