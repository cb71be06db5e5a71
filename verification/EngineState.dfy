/** The mutable engine state and the operations on it, statement by statement: balances,
    positions and the two-sided book of price levels. */
module EngineStates {
  import opened Money
  import opened States
  import opened JsMaps
  import opened Levels
  import opened Invariants
  import opened Snapshots
  import Accounts
  import Book
  import Risk
  import Spec = EngineSpec

  datatype Liquidation = Liquidation(userId: string, markPrice: int, realizedPnl: int)

  function LiquidationsOf(s: State, users: seq<string>, mark: int): seq<Liquidation>
  {
    if users == [] then []
    else
      var n := |users| - 1;
      var p := s.PositionOf(users[n]);
      LiquidationsOf(s, users[..n], mark) + [Liquidation(users[n], mark, Accounts.Pnl(p.entryPrice, mark, p.size))]
  }

  lemma SetTwice<V>(m: JsMap<V>, k: string, v: V, w: V)
    ensures m.Set(k, v).Set(k, w) == m.Set(k, w)
  {
    assert m.Set(k, v).Set(k, w).at == m.Set(k, w).at;
  }

  lemma SetSame<V>(m: JsMap<V>, k: string)
    requires k in m.at
    ensures m.Set(k, m.at[k]) == m
  {
    assert m.Set(k, m.at[k]).at == m.at;
  }

  lemma ProductAssociates(a: int, b: int, c: int)
    ensures a * b * c == a * (b * c)
  {
  }

  class EngineState {
    const market: MarketConfig
    var markPrice: int
    var lastTradePrice: int
    var balances: JsMap<Balance>
    var positions: JsMap<Position>
    var bids: seq<PriceLevel>
    var asks: seq<PriceLevel>
    var seqNo: nat
    var lastInputId: StreamId
    var appliedCount: nat
    var appliedCommandIds: seq<string>
    var lastObserverSeq: int

    constructor (market: MarketConfig)
      ensures Model() == CreateState(market) && Valid()
    {
      this.market := market;
      markPrice, lastTradePrice := 0, 0;
      balances, positions := Empty(), Empty();
      bids, asks := [], [];
      seqNo, lastInputId, appliedCount, appliedCommandIds, lastObserverSeq := 0, ZERO_ID, 0, [], -1;
      new;
      GenesisWf(market);
    }

    /** The state a snapshot describes; its flat sides determine the levels. */
    constructor Restore(x: Serialized)
      requires Deserialize(x).Some? && Wf(Deserialize(x).value)
      ensures Valid() && Model() == Deserialize(x).value
    {
      market := x.market;
      markPrice, lastTradePrice := x.markPrice, x.lastTradePrice;
      balances, positions := FromEntries(x.balances), FromEntries(x.positions);
      bids, asks := Group(x.bids), Group(x.asks);
      seqNo, lastInputId, appliedCount := x.seqNo, x.lastInputId, x.appliedCount;
      appliedCommandIds, lastObserverSeq := x.appliedCommandIds, x.lastObserverSeq;
      new;
      GroupOk(Bid, x.bids);
      GroupOk(Ask, x.asks);
    }

    /** The abstract state: the book levels flattened. */
    function Model(): State
      reads this
    {
      State(market, markPrice, lastTradePrice, balances, positions, Flatten(bids), Flatten(asks),
            seqNo, lastInputId, appliedCount, appliedCommandIds, lastObserverSeq)
    }

    function LevelsFor(side: Side): seq<PriceLevel>
      reads this
    {
      if side.Bid? then bids else asks
    }

    ghost predicate Shaped()
      reads this
    {
      LevelsOk(Bid, bids) && LevelsOk(Ask, asks)
    }

    ghost predicate Valid()
      reads this
    {
      Shaped() && Wf(Model())
    }

    // ----- Balances -----

    method EnsureBalance(u: string)
      modifies this`balances
      ensures balances == Spec.EnsureBalance(old(Model()), u).balances
    {
      if u !in balances.at {
        balances := balances.Set(u, NO_BALANCE);
      }
    }

    method Credit(u: string, amount: int)
      modifies this`balances
      ensures balances == old(balances).Set(u, Accounts.Credit(old(Model()).BalanceOf(u), amount))
    {
      EnsureBalance(u);
      var b := balances.at[u];
      b := b.(total := b.total + amount);
      b := b.(free := b.free + amount);
      SetTwice(old(balances), u, balances.at[u], b);
      SetSame(balances, u);
      balances := balances.Set(u, b);
    }

    /** Move `amount` from free to locked; false, and no more than a new empty balance, if
        free falls short. */
    method Lock(u: string, amount: int) returns (ok: bool)
      modifies this`balances
      ensures ok <==> amount <= old(Model()).BalanceOf(u).free + Accounts.TOLERANCE
      ensures balances == if ok then old(balances).Set(u, Accounts.Lock(old(Model()).BalanceOf(u), amount))
                          else Spec.EnsureBalance(old(Model()), u).balances
    {
      EnsureBalance(u);
      var b := balances.at[u];
      SetTwice(old(balances), u, b, Accounts.Lock(b, amount));
      if b.free + Accounts.TOLERANCE < amount { return false; }
      b := b.(free := b.free - amount);
      b := b.(locked := b.locked + amount);
      balances := balances.Set(u, b);
      return true;
    }

    /** Move up to `amount` from locked back to free. */
    method Release(u: string, amount: int) returns (moved: int)
      modifies this`balances
      ensures moved == Accounts.Moved(old(Model()).BalanceOf(u), amount)
      ensures balances == old(balances).Set(u, Accounts.Release(old(Model()).BalanceOf(u), amount))
    {
      EnsureBalance(u);
      var b := balances.at[u];
      SetTwice(old(balances), u, b, Accounts.Release(b, amount));
      moved := Min(b.locked, Max(0, amount));
      b := b.(locked := b.locked - moved);
      b := b.(free := b.free + moved);
      balances := balances.Set(u, b);
    }

    method ApplyPnl(u: string, pnl: int)
      modifies this`balances
      ensures balances == old(balances).Set(u, Accounts.ApplyPnl(old(Model()).BalanceOf(u), pnl))
    {
      EnsureBalance(u);
      var b := balances.at[u];
      SetTwice(old(balances), u, b, Accounts.ApplyPnl(b, pnl));
      b := b.(total := b.total + pnl);
      b := b.(free := b.free + pnl);
      balances := balances.Set(u, b);
    }

    // ----- Positions -----

    method EnsurePosition(u: string)
      modifies this`positions
      ensures positions == Spec.EnsurePosition(old(Model()), u).positions
    {
      if u !in positions.at {
        positions := positions.Set(u, FlatPosition(markPrice));
      }
    }

    /** Store a position with its liquidation price recomputed. */
    method StoreRefreshed(u: string, p: Position)
      modifies this`positions
      ensures positions == old(positions).Set(u, Accounts.RefreshLiq(p, market.maintenanceMarginRate))
    {
      var liq := 0;
      if p.size != 0 {
        liq := Risk.LiquidationPrice(p.entryPrice, p.leverage, 0 < p.size, market.maintenanceMarginRate);
      }
      positions := positions.Set(u, p.(liqPrice := liq));
    }

    /** Fold one fill leg into a user's position. Only an opposing fill touches the balance. */
    method ApplyFill(u: string, side: Side, price: int, fillQty: int, fillMargin: int, leverage: int)
      requires 0 < fillQty
      modifies this`balances, this`positions
      ensures var t := Spec.FillUser(old(Model()), u, Accounts.Fill(side, price, fillQty, fillMargin, leverage));
        var size := old(Model()).PositionOf(u).size;
        && positions == t.positions
        && balances == (if u in old(balances).at || (size != 0 && Sign(size) != (if side.Bid? then 1 else -1))
                        then t.balances else old(balances))
    {
      ghost var f := Accounts.Fill(side, price, fillQty, fillMargin, leverage);
      ghost var a := Spec.AccountOf(Model(), u);
      EnsurePosition(u);
      var p := positions.at[u];
      assert a == Accounts.Account(Model().BalanceOf(u), p);
      if u in balances.at { SetSame(balances, u); }
      ghost var final := Accounts.ApplyFill(a, f, market.maintenanceMarginRate).position;
      SetTwice(old(positions), u, p, final);
      SetSame(positions, u);
      var signed := if side.Bid? then fillQty else -fillQty;
      if p.size == 0 {
        p := p.(size := signed, entryPrice := price, margin := fillMargin, leverage := leverage);
        StoreRefreshed(u, p);
      } else if Sign(p.size) == Sign(signed) {
        var absOld := Abs(p.size);
        var newAbs := absOld + fillQty;
        p := p.(entryPrice := RoundDiv(absOld * p.entryPrice + fillQty * price, newAbs));
        p := p.(size := p.size + signed, margin := p.margin + fillMargin, leverage := leverage);
        StoreRefreshed(u, p);
      } else {
        OpposeFill(u, side, price, fillQty, fillMargin, leverage);
      }
    }

    /** What every opposing fill does first: free the closed part of the position's margin
        and of the fill's margin, and realize the PnL of the closed part. */
    method CloseAgainst(u: string, side: Side, price: int, fillQty: int, fillMargin: int, ghost f: Accounts.Fill)
      returns (p: Position, closedPortion: int)
      requires 0 < fillQty && u in positions.at && positions.at[u].size != 0
      requires f.side == side && f.price == price && f.qty == fillQty && f.margin == fillMargin
      modifies this`balances
      ensures var q0 := positions.at[u];
        && closedPortion == Accounts.FillMarginFreed(q0, f)
        && p == q0.(realizedPnl := q0.realizedPnl + Accounts.FillPnl(q0, f),
                    margin := q0.margin - Accounts.MarginFreed(q0, f), size := q0.size + f.Signed())
        && balances == old(balances).Set(u,
             Accounts.Release(Accounts.ApplyPnl(Accounts.Release(old(Model()).BalanceOf(u), Accounts.MarginFreed(q0, f)),
                                                Accounts.FillPnl(q0, f)), closedPortion))
    {
      p := positions.at[u];
      ghost var p0 := p;
      var absPos, absTrade := Abs(p.size), fillQty;
      var closedQty := Min(absPos, absTrade);
      var dir := if 0 < p.size then 1 else -1;
      var pnl := RoundDiv((price - p.entryPrice) * closedQty * dir, UNIT);
      ProductAssociates(price - p.entryPrice, closedQty, dir);
      assert pnl == Accounts.FillPnl(p0, f);

      var marginFreed := RoundDiv(closedQty * p.margin, absPos);
      assert marginFreed == Accounts.MarginFreed(p0, f);
      closedPortion := RoundDiv(closedQty * fillMargin, absTrade);
      assert closedPortion == Accounts.FillMarginFreed(p0, f);
      hide RoundDiv, Accounts.FillPnl, Accounts.MarginFreed, Accounts.FillMarginFreed, Accounts.Release, Accounts.ApplyPnl;

      ThreeSets(balances, u, Model().BalanceOf(u), marginFreed, pnl, closedPortion);
      var _ := Release(u, marginFreed);
      ApplyPnl(u, pnl);
      p := p.(realizedPnl := p.realizedPnl + pnl);
      p := p.(margin := p.margin - marginFreed);
      p := p.(size := p.size + (if side.Bid? then fillQty else -fillQty));
      var _ := Release(u, closedPortion);
    }

    /** Opposing fill: reduce, close or flip. */
    method OpposeFill(u: string, side: Side, price: int, fillQty: int, fillMargin: int, leverage: int)
      requires 0 < fillQty && u in positions.at && positions.at[u].size != 0
      modifies this`balances, this`positions
      ensures var r := Accounts.Oppose(Accounts.Account(old(Model()).BalanceOf(u), old(positions).at[u]),
                         Accounts.Fill(side, price, fillQty, fillMargin, leverage), market.maintenanceMarginRate);
        balances == old(balances).Set(u, r.balance) && positions == old(positions).Set(u, r.position)
    {
      hide RoundDiv, Accounts.FillPnl, Accounts.MarginFreed, Accounts.FillMarginFreed, Accounts.Release, Accounts.ApplyPnl,
        Accounts.RefreshLiq;
      var absPos := Abs(positions.at[u].size);
      var p, closedPortion := CloseAgainst(u, side, price, fillQty, fillMargin,
                                           Accounts.Fill(side, price, fillQty, fillMargin, leverage));
      if p.size == 0 {
        SetTwice(old(balances), u, balances.at[u], Accounts.Release(balances.at[u], p.margin));
        var _ := Release(u, p.margin);
        positions := positions.Set(u, p.(size := 0, entryPrice := 0, margin := 0, liqPrice := 0));
        return;
      }
      if fillQty > absPos {
        p := p.(entryPrice := price, margin := fillMargin - closedPortion, leverage := leverage);
      }
      StoreRefreshed(u, p);
    }

    static lemma ThreeSets(m: JsMap<Balance>, u: string, b0: Balance, x: int, pnl: int, y: int)
      ensures var b1 := Accounts.Release(b0, x);
        var b2 := Accounts.ApplyPnl(b1, pnl);
        var b3 := Accounts.Release(b2, y);
        m.Set(u, b1).Set(u, b2).Set(u, b3) == m.Set(u, b3)
    {
      var b1 := Accounts.Release(b0, x);
      var b2 := Accounts.ApplyPnl(b1, pnl);
      SetTwice(m, u, b1, b2);
      SetTwice(m, u, b2, Accounts.Release(b2, y));
    }

    /** Mark every position, in map order. */
    method MarkToMarket(mark: int)
      requires positions.Ok()
      modifies this`markPrice, this`positions
      ensures markPrice == mark && positions == Spec.MarkToMarket(old(Model()), mark).positions
    {
      ghost var s := Model();
      markPrice := mark;
      var keys := positions.keys;
      ghost var p0 := positions;
      for i := 0 to |keys|
        invariant markPrice == mark && positions.keys == keys == p0.keys
        invariant forall u :: u in positions.at <==> u in p0.at
        invariant forall j :: 0 <= j < i ==> positions.at[keys[j]] == Accounts.MarkPosition(p0.at[keys[j]], mark)
        invariant forall j :: i <= j < |keys| ==> positions.at[keys[j]] == p0.at[keys[j]]
      {
        var p := positions.at[keys[i]];
        var pnl := if p.size == 0 then 0 else RoundDiv((mark - p.entryPrice) * p.size, UNIT);
        positions := positions.Set(keys[i], p.(markPrice := mark, unrealizedPnl := pnl));
      }
      assert forall u :: u in p0.at ==> u in keys;
      assert positions.at == Spec.MarkToMarket(s, mark).positions.at;
    }

    /** Forced close of one position. */
    method LiquidateOne(u: string, mark: int) returns (pnl: int)
      requires u in balances.at && u in positions.at
      modifies this`balances, this`positions
      ensures var p := old(positions).at[u];
        var r := Accounts.Liquidate(Accounts.Account(old(balances).at[u], p), mark);
        && balances == old(balances).Set(u, r.balance) && positions == old(positions).Set(u, r.position)
        && pnl == Accounts.Pnl(p.entryPrice, mark, p.size)
    {
      var p := positions.at[u];
      pnl := RoundDiv((mark - p.entryPrice) * p.size, UNIT);
      SetTwice(balances, u, Accounts.Release(balances.at[u], p.margin),
               Accounts.ApplyPnl(Accounts.Release(balances.at[u], p.margin), pnl));
      var _ := Release(u, p.margin);
      ApplyPnl(u, pnl);
      p := p.(realizedPnl := p.realizedPnl + pnl);
      p := p.(size := 0, entryPrice := 0, margin := 0, liqPrice := 0, unrealizedPnl := 0);
      positions := positions.Set(u, p);
    }

    /** One iteration of the sweep. */
    method VisitPosition(u: string, mark: int) returns (out: seq<Liquidation>)
      requires u in balances.at && u in positions.at
      modifies this`balances, this`positions
      ensures var p := old(positions).at[u];
        var r := Accounts.Liquidate(Accounts.Account(old(balances).at[u], p), mark);
        if Accounts.Underwater(p, mark) then
          && balances == old(balances).Set(u, r.balance) && positions == old(positions).Set(u, r.position)
          && out == [Liquidation(u, mark, Accounts.Pnl(p.entryPrice, mark, p.size))]
        else balances == old(balances) && positions == old(positions) && out == []
    {
      var p := positions.at[u];
      if p.size == 0 { return []; }
      if !Risk.IsLiquidatable(mark, p.liqPrice, 0 < p.size) { return []; }
      var pnl := LiquidateOne(u, mark);
      out := [Liquidation(u, mark, pnl)];
    }

    /** Close every position that is underwater, in map order. */
    method LiquidationSweep(mark: int) returns (out: seq<Liquidation>)
      requires UsersOk(Model())
      modifies this`balances, this`positions
      ensures var t := Spec.Sweep(old(Model()), mark); balances == t.balances && positions == t.positions
      ensures out == LiquidationsOf(old(Model()), Spec.DoomedAmong(old(Model()), old(positions).keys, mark), mark)
    {
      out := [];
      var keys := positions.keys;
      ghost var s := Model();
      SweepEnds(s, mark);
      hide UsersOk, LiquidationsOf, Spec.DoomedAmong, Accounts.Liquidate, Accounts.Underwater, Spec.Sweep,
        SweptBalances, SweptPositions, Wf;
      for i := 0 to |keys|
        invariant positions == JsMap(keys, SweptPositions(s, keys[..i], mark))
        invariant balances == JsMap(s.balances.keys, SweptBalances(s, keys[..i], mark))
        invariant out == LiquidationsOf(s, Spec.DoomedAmong(s, keys[..i], mark), mark)
      {
        hide UsersOk, LiquidationsOf, Spec.DoomedAmong, Accounts.Liquidate, Accounts.Underwater, Spec.Sweep,
          SweptBalances, SweptPositions, Wf;
        var u := keys[i];
        NextKey(s, i);
        NotYetSwept(s, keys[..i], u, mark);
        SweepOneMore(s, keys[..i], u, mark);
        var liq := VisitPosition(u, mark);
        out := out + liq;
      }
      assert keys[..|keys|] == keys;
    }

    static lemma NextKey(s: State, i: nat)
      requires UsersOk(s) && i < |s.positions.keys|
      ensures var keys := s.positions.keys;
        && keys[..i + 1] == keys[..i] + [keys[i]] && keys[i] !in keys[..i]
        && keys[i] in s.balances.at && keys[i] in s.positions.at
    {
      assert s.positions.keys[i] in s.positions.keys;
    }

    static lemma SweepEnds(s: State, mark: int)
      requires UsersOk(s)
      ensures var keys := s.positions.keys;
        && JsMap(keys, SweptPositions(s, keys[..0], mark)) == s.positions
        && JsMap(s.balances.keys, SweptBalances(s, keys[..0], mark)) == s.balances
        && LiquidationsOf(s, Spec.DoomedAmong(s, keys[..0], mark), mark) == []
        && JsMap(keys, SweptPositions(s, keys, mark)) == Spec.Sweep(s, mark).positions
        && JsMap(s.balances.keys, SweptBalances(s, keys, mark)) == Spec.Sweep(s, mark).balances
    {
      var keys := s.positions.keys;
      assert keys[..0] == [];
      hide Accounts.Liquidate, Accounts.Underwater;
      assert SweptPositions(s, [], mark) == s.positions.at;
      assert SweptBalances(s, [], mark) == s.balances.at;
      assert SweptPositions(s, keys, mark) == Spec.Sweep(s, mark).positions.at;
      assert SweptBalances(s, keys, mark) == Spec.Sweep(s, mark).balances.at;
    }

    static lemma NotYetSwept(s: State, done: seq<string>, u: string, mark: int)
      requires u !in done && u in s.balances.at && u in s.positions.at
      ensures u in SweptBalances(s, done, mark) && SweptBalances(s, done, mark)[u] == s.balances.at[u]
      ensures u in SweptPositions(s, done, mark) && SweptPositions(s, done, mark)[u] == s.positions.at[u]
      ensures Spec.Doomed(s, u, mark) <==> Accounts.Underwater(s.positions.at[u], mark)
      ensures Spec.AccountOf(s, u) == Accounts.Account(s.balances.at[u], s.positions.at[u])
    {
    }

    /** Maps after the sweep has visited the users in `done`. */
    static ghost function SweptBalances(s: State, done: seq<string>, mark: int): map<string, Balance>
    {
      map u | u in s.balances.at ::
        if u in done && Spec.Doomed(s, u, mark) then Accounts.Liquidate(Spec.AccountOf(s, u), mark).balance
        else s.balances.at[u]
    }

    static ghost function SweptPositions(s: State, done: seq<string>, mark: int): map<string, Position>
    {
      map u | u in s.positions.at ::
        if u in done && Spec.Doomed(s, u, mark) then Accounts.Liquidate(Spec.AccountOf(s, u), mark).position
        else s.positions.at[u]
    }

    static lemma SweepOneMore(s: State, done: seq<string>, u: string, mark: int)
      requires u in s.balances.at && u in s.positions.at
      ensures var r := Accounts.Liquidate(Spec.AccountOf(s, u), mark);
        if Spec.Doomed(s, u, mark) then
          && SweptBalances(s, done + [u], mark) == SweptBalances(s, done, mark)[u := r.balance]
          && SweptPositions(s, done + [u], mark) == SweptPositions(s, done, mark)[u := r.position]
        else
          && SweptBalances(s, done + [u], mark) == SweptBalances(s, done, mark)
          && SweptPositions(s, done + [u], mark) == SweptPositions(s, done, mark)
      ensures LiquidationsOf(s, Spec.DoomedAmong(s, done + [u], mark), mark) ==
                LiquidationsOf(s, Spec.DoomedAmong(s, done, mark), mark)
                + (if Spec.Doomed(s, u, mark)
                   then [Liquidation(u, mark, Accounts.Pnl(s.PositionOf(u).entryPrice, mark, s.PositionOf(u).size))]
                   else [])
    {
      DoomedAmongLast(s, done, u, mark);
      hide Accounts.Liquidate, Spec.Doomed, Spec.DoomedAmong;
      var users := Spec.DoomedAmong(s, done, mark);
      assert (users + [u])[..|users + [u]| - 1] == users && users + [] == users;
    }

    static lemma {:induction false} DoomedAmongLast(s: State, keys: seq<string>, u: string, mark: int)
      ensures Spec.DoomedAmong(s, keys + [u], mark)
           == Spec.DoomedAmong(s, keys, mark) + (if Spec.Doomed(s, u, mark) then [u] else [])
    {
      if keys == [] {
        assert keys + [u] == [u] && [u][1..] == [];
      } else {
        assert (keys + [u])[1..] == keys[1..] + [u];
        DoomedAmongLast(s, keys[1..], u, mark);
      }
    }

    // ----- Book -----

    method InsertResting(o: Order)
      requires LevelsOk(o.side, LevelsFor(o.side))
      modifies this`bids, this`asks
      ensures LevelsFor(o.side) == InsertLevel(old(LevelsFor(o.side)), o)
      ensures LevelsFor(o.side.Opposite()) == old(LevelsFor(o.side.Opposite()))
      ensures LevelsOk(o.side, LevelsFor(o.side))
      ensures Flatten(LevelsFor(o.side)) == Book.Insert(old(Flatten(LevelsFor(o.side))), o)
    {
      var levels := LevelsFor(o.side);
      InsertLevelRefines(levels, o);
      var idx := LevelIndex(levels, o.price);
      if idx == |levels| {
        var insertAt := FirstWorse(o.side, levels, o.price);
        FillNewLevel(levels, insertAt, o.price, o);
        levels := levels[..insertAt] + [PriceLevel(o.price, [])] + levels[insertAt..];
        idx := insertAt;
      }
      levels := levels[idx := levels[idx].(orders := levels[idx].orders + [o])];
      assert levels == InsertLevel(LevelsFor(o.side), o);
      if o.side.Bid? { bids := levels; } else { asks := levels; }
    }

    method RemoveEmptyLevel(side: Side, price: int)
      modifies this`bids, this`asks
      ensures LevelsFor(side) == RemoveEmpty(old(LevelsFor(side)), price)
      ensures LevelsFor(side.Opposite()) == old(LevelsFor(side.Opposite()))
    {
      var levels := LevelsFor(side);
      var idx := LevelIndex(levels, price);
      if idx != |levels| && levels[idx].orders == [] {
        levels := levels[..idx] + levels[idx + 1..];
      }
      if side.Bid? { bids := levels; } else { asks := levels; }
    }

    /** Remove the order with this price and id, and its level if that leaves it empty. */
    method CancelResting(side: Side, price: int, orderId: string) returns (removed: Option<Order>)
      requires LevelsOk(side, LevelsFor(side))
      modifies this`bids, this`asks
      ensures LevelsFor(side.Opposite()) == old(LevelsFor(side.Opposite()))
      ensures LevelsOk(side, LevelsFor(side))
      ensures var s := old(Flatten(LevelsFor(side)));
        var i := Book.Find(s, price, orderId);
        if i == |s| then removed.None? && LevelsFor(side) == old(LevelsFor(side))
        else removed == Some(s[i]) && Flatten(LevelsFor(side)) == Book.Remove(s, i)
    {
      hide LevelsOk, Flatten, RemoveEmpty, Book.Remove, Book.Find, LevelIndex, OrderIndex;
      var levels := LevelsFor(side);
      CancelRefines(side, levels, price, orderId);
      var idx := LevelIndex(levels, price);
      if idx == |levels| { return None; }
      var i := OrderIndex(levels[idx].orders, orderId);
      if i == |levels[idx].orders| { return None; }
      removed := Some(levels[idx].orders[i]);
      levels := levels[idx := levels[idx].(orders := Book.Remove(levels[idx].orders, i))];
      if side.Bid? { bids := levels; } else { asks := levels; }
      RemoveEmptyLevel(side, price);
    }

    function BestPrice(side: Side): Option<int>
      reads this
    {
      if LevelsFor(side) == [] then None else Some(LevelsFor(side)[0].price)
    }
  }
}
