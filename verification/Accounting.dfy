/** Money over runs, price ticks, and placing an order that is cancelled again. */
module Accounting {
  import opened Money
  import opened States
  import opened JsMaps
  import opened Accounts
  import opened EngineSpec
  import opened Book
  import opened Invariants
  import ZeroSum

  // ----- Total balance is credits plus realized PnL -----

  function NetCredit(s: State, u: string): int
  {
    s.BalanceOf(u).total - s.PositionOf(u).realizedPnl
  }

  /** What an event credits to a user. */
  function EventCredit(s: State, e: Event, u: string): int
  {
    if AlreadyApplied(s, e) then 0
    else match e.payload
      case UserCreated(v, openingBalance) => if u == v then openingBalance else 0
      case BalanceDeposited(v, amount) => if u == v then amount else 0
      case _ => 0
  }

  ghost function RunCredits(s: State, es: seq<Input>, u: string): int
    requires Wf(s) && AllAdmitted(es)
  {
    if es == [] then 0
    else
      var n := |es| - 1;
      RunCredits(s, es[..n], u) + EventCredit(Run(s, es[..n]), es[n].event, u)
  }

  lemma FillUserCredit(s: State, v: string, f: Fill, u: string)
    requires Sound(AccountOf(s, v), s.market.maintenanceMarginRate)
    requires 0 < f.qty && 0 <= f.margin && 0 <= f.price && 0 < f.leverage
    ensures NetCredit(FillUser(s, v, f), u) == NetCredit(s, u)
  {
    if u == v {
      ApplyFillSound(AccountOf(s, v), f, s.market.maintenanceMarginRate);
    }
  }

  lemma FillStepCredit(o: Place, ts: nat, m: Matching, u: string)
    requires Ready(o, m) && CanFill(o, m)
    ensures NetCredit(FillStep(o, ts, m).s, u) == NetCredit(m.s, u)
  {
    var qty, maker := FillQty(o, m), Makers(o, m)[0];
    var s1 := m.s.WithOrders(o.side.Opposite(), MakersAfter(Makers(o, m), qty));
    ConsumedUsersOk(o, m.s, qty);
    MakerMarginBounds(maker, qty);
    TakerShareBounds(o, qty);
    FillUserCredit(s1, maker.userId, MakerFill(maker, qty), u);
    FillUserOk(s1, maker.userId, MakerFill(maker, qty));
    var s2 := FillUser(s1, maker.userId, MakerFill(maker, qty));
    hide BookOk, FillUser;
    FillUserCredit(s2, o.userId, TakerFill(o, maker.price, qty), u);
  }

  lemma {:induction false} MatchAllCredit(o: Place, ts: nat, m: Matching, u: string)
    requires Ready(o, m)
    ensures NetCredit(MatchAll(o, ts, m).s, u) == NetCredit(m.s, u)
    decreases |Makers(o, m)|, Max(0, m.remaining)
  {
    hide *;
    MatchUnfold(o, ts, m);
    if CanFill(o, m) {
      FillStepCredit(o, ts, m, u);
      MatchAllCredit(o, ts, FillStep(o, ts, m), u);
    }
  }

  lemma {:induction false} EnsureAllCredit(s: State, users: seq<string>, u: string)
    ensures NetCredit(EnsureAll(s, users), u) == NetCredit(s, u)
    decreases |users|
  {
    if users != [] {
      EnsureAllCredit(EnsurePosition(s, users[0]), users[1..], u);
    }
  }

  lemma StartCredit(s: State, o: Place, u: string)
    ensures NetCredit(StartMatching(s, o).s, u) == NetCredit(s, u)
  {
  }

  lemma RemainderCredit(o: Place, ts: nat, m: Matching, u: string)
    requires 0 < o.quantity
    ensures NetCredit(HandleRemainder(o, ts, m).s, u) == NetCredit(m.s, u)
  {
  }

  lemma ExecutedCredit(s: State, o: Place, ts: nat, u: string)
    requires Wf(s) && Refusal(s, o).None? && 0 < o.quantity && 0 < o.margin && 0 <= o.price
    ensures NetCredit(Executed(s, o, ts).s, u) == NetCredit(s, u)
  {
    StartMatchingReady(s, o);
    StartCredit(s, o, u);
    MatchAllCredit(o, ts, StartMatching(s, o), u);
    hide MatchAll, StartMatching, HandleRemainder, NetCredit, Ready;
    RemainderCredit(o, ts, MatchAll(o, ts, StartMatching(s, o)), u);
  }

  lemma PlaceCredit(s: State, o: Place, ts: nat, c: Option<string>, u: string)
    requires Wf(s) && 0 < o.quantity && 0 < o.margin && 0 <= o.price
    ensures NetCredit(OnPlaceOrder(s, o, ts, c).0, u) == NetCredit(s, u)
  {
    if Refusal(s, o).None? {
      ExecutedCredit(s, o, ts, u);
      EnsureAllCredit(Executed(s, o, ts).s, Executed(s, o, ts).affected, u);
      hide Executed, EnsureAll, NetCredit;
    }
  }

  lemma TickCredit(s: State, price: int, observerSeq: int, u: string)
    requires Wf(s)
    ensures NetCredit(OnIndexPrice(s, price, observerSeq).0, u) == NetCredit(s, u)
  {
    if s.lastObserverSeq < observerSeq {
      var s0 := s.(lastObserverSeq := observerSeq);
      var s1 := MarkToMarket(s0, price);
      SameAccountsOk(s, s0);
      MarkToMarketOk(s0, price);
      assert NetCredit(s1, u) == NetCredit(s, u);
      SweptAccount(s1, price, u);
      assert NetCredit(Sweep(s1, price), u)
          == AccountOf(Sweep(s1, price), u).balance.total - AccountOf(Sweep(s1, price), u).position.realizedPnl;
      assert Sound(AccountOf(s1, u), s1.market.maintenanceMarginRate);
      LiquidateSound(AccountOf(s1, u), price, s1.market.maintenanceMarginRate);
    }
  }

  lemma NoCredit(s: State, e: Event, u: string)
    requires e.payload.PlaceOrder? || e.payload.IndexPriceUpdated?
    ensures EventCredit(s, e, u) == 0
  {
  }

  lemma DispatchCredit(s: State, e: Event, u: string)
    requires Wf(s) && e.Admitted() && !AlreadyApplied(s, e)
    ensures NetCredit(Dispatch(s, e).0, u) == NetCredit(s, u) + EventCredit(s, e, u)
  {
    WfPositive(s);
    match e.payload
    case PlaceOrder(o) => hide *; PlaceIs(s, e); NoCredit(s, e, u); PlaceCredit(s, o, e.ts, e.commandId, u);
    case IndexPriceUpdated(price, observerSeq) =>
      hide *; TickIs(s, e); NoCredit(s, e, u); TickCredit(s, price, observerSeq, u);
    case _ => hide Wf;
  }

  lemma StepCredit(s: State, e: Event, id: StreamId, u: string)
    requires Wf(s) && e.Admitted()
    ensures NetCredit(Step(s, e, id), u) == NetCredit(s, u) + EventCredit(s, e, u)
  {
    if !AlreadyApplied(s, e) {
      DispatchCredit(s, e, u);
      hide Dispatch, Wf;
    }
  }

  /** In every reachable state, for every user: total = free + locked, nothing negative is
      locked, and the total is exactly what was credited plus realized PnL. */
  lemma {:induction false} BalancesAddUp(market: MarketConfig, es: seq<Input>, u: string)
    requires AllAdmitted(es)
    ensures Wf(CreateState(market))
    ensures var s := Run(CreateState(market), es);
      && s.BalanceOf(u).total == s.BalanceOf(u).free + s.BalanceOf(u).locked
      && 0 <= s.BalanceOf(u).locked
      && s.BalanceOf(u).total == RunCredits(CreateState(market), es, u) + s.PositionOf(u).realizedPnl
  {
    GenesisWf(market);
    var s0 := CreateState(market);
    var s := Run(s0, es);
    assert Sound(AccountOf(s, u), s.market.maintenanceMarginRate);
    if es != [] {
      var n := |es| - 1;
      BalancesAddUp(market, es[..n], u);
      StepCredit(Run(s0, es[..n]), es[n].event, es[n].id, u);
    }
  }

  // ----- Price ticks -----

  /** What a tick does to one position: marked, and closed if underwater. */
  ghost predicate Ticked(p: Position, t: Position, mark: int)
  {
    && t.markPrice == mark
    && t.leverage == p.leverage
    && !Underwater(t, mark)
    && t.unrealizedPnl == Pnl(t.entryPrice, mark, t.size)
    && (Underwater(p, mark) ==>
          t.size == 0 && t.entryPrice == 0 && t.margin == 0 && t.liqPrice == 0
          && t.realizedPnl == p.realizedPnl + Pnl(p.entryPrice, mark, p.size))
    && (!Underwater(p, mark) ==>
          t.size == p.size && t.entryPrice == p.entryPrice && t.margin == p.margin
          && t.liqPrice == p.liqPrice && t.realizedPnl == p.realizedPnl)
  }

  /** An accepted tick closes exactly the positions underwater at the new mark, in any
      reachable state; afterwards none is liquidatable, every unrealized PnL is current,
      and the liquidation events name exactly the closed users, each once. */
  lemma TickClosesExactlyTheUnderwater(s: State, mark: int, observerSeq: int)
    requires Wf(s) && s.lastObserverSeq < observerSeq
    ensures var t := OnIndexPrice(s, mark, observerSeq).0;
      && t.markPrice == mark && t.positions.keys == s.positions.keys
      && (forall u :: u in t.positions.at <==> u in s.positions.at)
      && (forall u :: u in s.positions.at ==> Ticked(s.positions.at[u], t.positions.at[u], mark))
    ensures var s1 := MarkToMarket(s.(lastObserverSeq := observerSeq), mark);
      var users := DoomedAmong(s1, s1.positions.keys, mark);
      && OnIndexPrice(s, mark, observerSeq).1 == LiquidationDrafts(s1, Sweep(s1, mark), users, mark)
      && NoDuplicates(users)
      && forall u :: u in users <==> u in s.positions.at && Underwater(s.positions.at[u], mark)
  {
    RoundDivExact(0, UNIT);
    var s1 := MarkToMarket(s.(lastObserverSeq := observerSeq), mark);
    var t := OnIndexPrice(s, mark, observerSeq).0;
    ZeroSum.DoomedAmongFacts(s1, s1.positions.keys, mark);
    forall u | u in s.positions.at
      ensures Ticked(s.positions.at[u], t.positions.at[u], mark)
      ensures Doomed(s1, u, mark) <==> Underwater(s.positions.at[u], mark)
    {
      TickedPosition(s, mark, observerSeq, u);
    }
  }

  lemma TickedPosition(s: State, mark: int, observerSeq: int, u: string)
    requires s.lastObserverSeq < observerSeq && u in s.positions.at
    ensures Ticked(s.positions.at[u], OnIndexPrice(s, mark, observerSeq).0.positions.at[u], mark)
    ensures var s1 := MarkToMarket(s.(lastObserverSeq := observerSeq), mark);
      Doomed(s1, u, mark) <==> Underwater(s.positions.at[u], mark)
  {
    RoundDivExact(0, UNIT);
    var p := s.positions.at[u];
    assert Underwater(MarkPosition(p, mark), mark) <==> Underwater(p, mark);
  }

  /** In every reachable state the cached liquidation price is the one entry price and
      leverage determine, and a flat position carries no entry, margin or trigger. */
  lemma LiquidationPriceIsCurrent(market: MarketConfig, es: seq<Input>, u: string)
    requires AllAdmitted(es)
    ensures Wf(CreateState(market))
    ensures var p := Run(CreateState(market), es).PositionOf(u);
      && p.liqPrice == LiqPriceOf(p, Run(CreateState(market), es).market.maintenanceMarginRate)
      && (p.size == 0 ==> p.liqPrice == 0 && p.entryPrice == 0 && p.margin == 0)
      && 0 <= p.margin
  {
    GenesisWf(market);
    var s := Run(CreateState(market), es);
    assert Sound(AccountOf(s, u), s.market.maintenanceMarginRate);
  }

  // ----- Place, then cancel -----

  /** An accepted limit order that crosses nothing, under an id fresh at its price. */
  ghost predicate RestsOnly(s: State, o: Place)
  {
    && Refusal(s, o).None? && o.orderType.LIMIT?
    && 0 < o.quantity && 0 < o.margin && 0 <= o.price
    && (s.Orders(o.side.Opposite()) != [] ==> !Crosses(o, s.Orders(o.side.Opposite())[0].price))
    && (forall i :: 0 <= i < |s.Orders(o.side)| ==>
          s.Orders(o.side)[i].price != o.price || s.Orders(o.side)[i].orderId != o.orderId)
  }

  lemma NothingToFill(s: State, o: Place, ts: nat)
    requires Wf(s) && RestsOnly(s, o)
    ensures Executed(s, o, ts) == HandleRemainder(o, ts, StartMatching(s, o))
  {
    hide HandleRemainder, Refusal;
    assert !CanFill(o, StartMatching(s, o));
  }

  function Rested(s: State, o: Place, ts: nat): Order
  {
    Order(o.orderId, o.userId, o.side, o.price, o.quantity, o.quantity, o.leverage, o.margin, s.seqNo + 1, ts)
  }

  /** The state with the collateral locked and the order on the book. */
  function WithRested(s: State, o: Place, ts: nat): State
  {
    var s1 := PutBalance(s, o.userId, Lock(s.BalanceOf(o.userId), o.margin));
    s1.(seqNo := s.seqNo + 1).WithOrders(o.side, Insert(s.Orders(o.side), Rested(s, o, ts)))
  }

  lemma RestedState(s: State, o: Place, ts: nat, c: Option<string>)
    requires Wf(s) && RestsOnly(s, o)
    ensures OnPlaceOrder(s, o, ts, c).0 == EnsurePosition(WithRested(s, o, ts), o.userId)
  {
    NothingToFill(s, o, ts);
    WholeMargin(o);
    var m := StartMatching(s, o);
    assert RestingOrder(o, ts, m) == Rested(s, o, ts);
    var h := HandleRemainder(o, ts, m);
    assert h.s == WithRested(s, o, ts) && h.affected == [o.userId];
    hide Executed, HandleRemainder, WithRested, Refusal, Wf;
    assert EnsureAll(h.s, [o.userId]) == EnsureAll(EnsurePosition(h.s, o.userId), []);
  }

  lemma WholeMargin(o: Place)
    requires 0 < o.quantity
    ensures TakerShare(o, o.quantity) == o.margin
  {
    RoundDivExact(o.margin, o.quantity);
    assert o.quantity * o.margin == o.margin * o.quantity;
  }

  lemma SetBack<V>(m: JsMap<V>, u: string, v: V)
    requires u in m.at
    ensures m.Set(u, v).Set(u, m.at[u]) == m
  {
    assert m.Set(u, v).Set(u, m.at[u]).at == m.at;
  }

  lemma FindsRested(s: State, o: Place, ts: nat)
    requires Wf(s) && RestsOnly(s, o)
    ensures var orders := Insert(s.Orders(o.side), Rested(s, o, ts));
      var i := Find(orders, o.price, o.orderId);
      i < |orders| && orders[i] == Rested(s, o, ts) && Remove(orders, i) == s.Orders(o.side)
  {
    RemoveInserted(o.side, s.Orders(o.side), Rested(s, o, ts));
  }

  lemma UnlockRestores(s: State, u: string, amount: int)
    requires Wf(s) && 0 <= amount
    ensures Release(Lock(s.BalanceOf(u), amount), amount) == s.BalanceOf(u)
  {
    assert Sound(AccountOf(s, u), s.market.maintenanceMarginRate);
  }

  /** Cancelling what WithRested placed. */
  lemma CancelRested(s: State, o: Place, ts: nat, c: Option<string>)
    requires Wf(s) && RestsOnly(s, o)
    ensures var t := EnsurePosition(WithRested(s, o, ts), o.userId);
      OnCancelOrder(t, o.userId, o.orderId, o.side, o.price, c).0
        == PutBalance(t.WithOrders(o.side, s.Orders(o.side)), o.userId, s.BalanceOf(o.userId))
  {
    FindsRested(s, o, ts);
    UnlockRestores(s, o.userId, o.margin);
    hide Find, Remove, Insert, Wf, RestsOnly, Release, Lock;
    var t := EnsurePosition(WithRested(s, o, ts), o.userId);
    assert t.Orders(o.side) == Insert(s.Orders(o.side), Rested(s, o, ts));
    assert t.BalanceOf(o.userId) == Lock(s.BalanceOf(o.userId), o.margin);
  }

  lemma RestoredState(s: State, o: Place, ts: nat)
    requires o.userId in s.balances.at
    ensures var t := EnsurePosition(WithRested(s, o, ts), o.userId);
      PutBalance(t.WithOrders(o.side, s.Orders(o.side)), o.userId, s.BalanceOf(o.userId))
        == EnsurePosition(s, o.userId).(seqNo := s.seqNo + 1)
  {
    SetBack(s.balances, o.userId, Lock(s.BalanceOf(o.userId), o.margin));
    hide Insert, Lock, Rested;
  }

  /** Cancelling it again restores both book sides and every balance; all that stays is
      the sequence number and possibly a new flat position record. */
  lemma PlaceThenCancel(s: State, o: Place, ts: nat, c: Option<string>, c2: Option<string>)
    requires Wf(s) && RestsOnly(s, o)
    ensures OnCancelOrder(OnPlaceOrder(s, o, ts, c).0, o.userId, o.orderId, o.side, o.price, c2).0
         == EnsurePosition(s, o.userId).(seqNo := s.seqNo + 1)
  {
    RestedState(s, o, ts, c);
    CancelRested(s, o, ts, c2);
    hide OnPlaceOrder, OnCancelOrder, Wf;
    RestoredState(s, o, ts);
  }
}
