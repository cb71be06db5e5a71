/** Every user's locked collateral is what backs their resting orders and their
    position, up to half a unit for each pro-rata share the engine rounded for them. */
module LockedMargin {
  import opened Money
  import opened States
  import opened Accounts
  import opened EngineSpec
  import opened Book
  import opened Invariants

  function RestingMargin(s: State, u: string): int
  {
    MarginFor(s.bids, u) + MarginFor(s.asks, u)
  }

  /** Locked collateral minus the collateral of resting orders and position. */
  function LockedGap(s: State, u: string): int
  {
    s.BalanceOf(u).locked - RestingMargin(s, u) - s.PositionOf(u).margin
  }

  /** Pro-rata shares rounded for user u by an event: one per fill of u's incoming order
      and one for a remainder that rests or is released. */
  ghost function Allocations(s: State, e: Event, u: string): nat
    requires Wf(s) && e.Admitted()
  {
    if AlreadyApplied(s, e) || !e.payload.PlaceOrder? then 0
    else
      var o := e.payload.order;
      if o.userId != u || Refusal(s, o).Some? then 0
      else
        var m := MatchAll(o, e.ts, StartMatching(s, o));
        |m.legs| / 2 + (if 0 < m.remaining then 1 else 0)
  }

  ghost function TotalAllocations(s: State, es: seq<Input>, u: string): nat
    requires Wf(s) && AllAdmitted(es)
  {
    if es == [] then 0
    else
      var n := |es| - 1;
      TotalAllocations(s, es[..n], u) + Allocations(Run(s, es[..n]), es[n].event, u)
  }

  /** Exact share of the order margin that belongs to a quantity. */
  ghost function ExactShare(o: Place, qty: int): real
    requires 0 < o.quantity
  {
    (qty * o.margin) as real / o.quantity as real
  }

  /** The gap during matching, counting the taker's unfilled part at its exact share. */
  ghost function MatchGap(o: Place, s: State, remaining: int, u: string): real
    requires 0 < o.quantity
  {
    Gap(s.BalanceOf(u), s.PositionOf(u).margin,
        RestingMargin(s, u) as real + (if u == o.userId then ExactShare(o, remaining) else 0.0))
  }

  function AbsR(x: real): real { if x < 0.0 then -x else x }

  lemma ExactShareFacts(o: Place, remaining: int, qty: int)
    requires 0 < o.quantity && 0 <= o.margin && 0 <= qty <= remaining
    ensures ExactShare(o, remaining - qty) == ExactShare(o, remaining) - ExactShare(o, qty)
    ensures 0.0 <= ExactShare(o, remaining - qty)
    ensures -0.5 <= TakerShare(o, qty) as real - ExactShare(o, qty) <= 0.5
    ensures ExactShare(o, 0) == 0.0
  {
    RoundDivReal(qty * o.margin, o.quantity);
    var d, a, b := o.quantity as real, remaining * o.margin, qty * o.margin;
    assert (remaining - qty) * o.margin == a - b;
    SplitQuotient(a as real, b as real, d);
    assert 0 <= (remaining - qty) * o.margin;
    QuotientNonNegative((a - b) as real, d);
  }

  lemma SplitQuotient(a: real, b: real, d: real)
    requires d != 0.0
    ensures (a - b) / d == a / d - b / d
  {
  }

  lemma QuotientNonNegative(a: real, d: real)
    requires 0.0 < d && 0.0 <= a
    ensures 0.0 <= a / d
  {
    var x := a / d;
    assert x * d == a;
    RatioAbove(x, d, 0.0);
  }

  lemma WholeShare(o: Place)
    requires 0 < o.quantity
    ensures ExactShare(o, o.quantity) == o.margin as real
  {
    var d := o.quantity as real;
    assert (o.quantity * o.margin) as real == o.margin as real * d;
  }

  // ----- One fill -----

  lemma ConsumedMargin(s: seq<Order>, qty: int, u: string)
    requires s != [] && 0 < qty <= s[0].remaining && 0 <= s[0].margin
    ensures MarginFor(MakersAfter(s, qty), u)
         == MarginFor(s, u) - (if s[0].userId == u then MakerFillMargin(s[0], qty) else 0)
  {
    MakerMarginBounds(s[0], qty);
    if qty < s[0].remaining {
      assert MakersAfter(s, qty)[1..] == s[1..];
    }
  }

  lemma RestingMarginNonNegative(s: State, u: string)
    requires BookOk(s)
    ensures 0 <= MarginFor(s.bids, u) && 0 <= MarginFor(s.asks, u)
  {
    MarginNonNegative(s.bids, u);
    MarginNonNegative(s.asks, u);
  }

  /** The fill margin of user u moves from the obligation `f.margin` into the account. */
  lemma FillUserGap(s: State, u: string, f: Fill, v: string, rest: real)
    requires Sound(AccountOf(s, u), s.market.maintenanceMarginRate)
    requires 0 < f.qty && 0 <= f.margin && 0.0 <= rest
    ensures var t := FillUser(s, u, f);
      Shrinks(Gap(s.BalanceOf(v), s.PositionOf(v).margin + (if u == v then f.margin else 0), rest),
              Gap(t.BalanceOf(v), t.PositionOf(v).margin, rest))
  {
    if u == v {
      ApplyFillShrinksGap(AccountOf(s, u), f, s.market.maintenanceMarginRate, rest);
    }
  }

  /** What the maker leg starts from: a sound account, and a margin off the book. */
  lemma MakerSide(o: Place, m: Matching, s1: State, qty: int, u: string)
    requires Ready(o, m) && CanFill(o, m) && qty == FillQty(o, m)
    requires s1 == m.s.WithOrders(o.side.Opposite(), MakersAfter(Makers(o, m), qty))
    ensures var maker := Makers(o, m)[0];
      && 0 < qty && 0 <= MakerFillMargin(maker, qty)
      && Sound(AccountOf(s1, maker.userId), s1.market.maintenanceMarginRate)
      && 0 <= RestingMargin(s1, u)
      && RestingMargin(s1, u) == RestingMargin(m.s, u) - (if maker.userId == u then MakerFillMargin(maker, qty) else 0)
    ensures 0 < o.quantity && 0.0 <= ExactShare(o, m.remaining)
  {
    var maker := Makers(o, m)[0];
    MakerMarginBounds(maker, qty);
    ConsumedMargin(Makers(o, m), qty, u);
    ConsumedBookOk(o, m.s, qty);
    RestingMarginNonNegative(s1, u);
    ExactShareFacts(o, m.remaining, 0);
    assert Sound(AccountOf(m.s, maker.userId), m.s.market.maintenanceMarginRate);
    assert AccountOf(s1, maker.userId) == AccountOf(m.s, maker.userId);
  }

  /** Maker leg: exact. */
  lemma MakerLegGap(o: Place, m: Matching, s1: State, s2: State, qty: int, u: string)
    requires Ready(o, m) && CanFill(o, m) && qty == FillQty(o, m)
    requires s1 == m.s.WithOrders(o.side.Opposite(), MakersAfter(Makers(o, m), qty))
    requires s2 == FillUser(s1, Makers(o, m)[0].userId, MakerFill(Makers(o, m)[0], qty))
    ensures Shrinks(MatchGap(o, m.s, m.remaining, u), MatchGap(o, s2, m.remaining, u))
  {
    MakerSide(o, m, s1, qty, u);
    hide Ready, CanFill, Sound, BookOk, ExactShare, MakerFillMargin, MakersAfter, MarginFor, ApplyFill, FillQty;
    FillUserGap(s1, Makers(o, m)[0].userId, MakerFill(Makers(o, m)[0], qty), u,
      RestingMargin(s1, u) as real + (if u == o.userId then ExactShare(o, m.remaining) else 0.0));
  }

  /** Taker leg: one rounded share. */
  lemma TakerLegGap(o: Place, s2: State, s3: State, remaining: int, price: int, qty: int, u: string)
    requires BookOk(s2) && Sound(AccountOf(s2, o.userId), s2.market.maintenanceMarginRate)
    requires 0 < o.quantity && 0 < o.margin && 0 < qty <= remaining <= o.quantity
    requires s3 == FillUser(s2, o.userId, TakerFill(o, price, qty))
    ensures AbsR(MatchGap(o, s3, remaining - qty, u))
         <= AbsR(MatchGap(o, s2, remaining, u)) + (if u == o.userId then 0.5 else 0.0)
  {
    RestingMarginNonNegative(s2, u);
    ExactShareFacts(o, remaining, qty);
    TakerShareBounds(o, qty);
    FillUserGap(s2, o.userId, TakerFill(o, price, qty), u,
      RestingMargin(s2, u) as real + (if u == o.userId then ExactShare(o, remaining - qty) else 0.0));
  }

  lemma MakerLegOk(o: Place, m: Matching, s1: State, s2: State, qty: int)
    requires Ready(o, m) && CanFill(o, m) && qty == FillQty(o, m)
    requires s1 == m.s.WithOrders(o.side.Opposite(), MakersAfter(Makers(o, m), qty))
    requires s2 == FillUser(s1, Makers(o, m)[0].userId, MakerFill(Makers(o, m)[0], qty))
    ensures BookOk(s2) && Sound(AccountOf(s2, o.userId), s2.market.maintenanceMarginRate)
  {
    var maker := Makers(o, m)[0];
    ConsumedUsersOk(o, m.s, qty);
    ConsumedBookOk(o, m.s, qty);
    MakerMarginBounds(maker, qty);
    FillUserOk(s1, maker.userId, MakerFill(maker, qty));
  }

  lemma SameMatchGap(o: Place, s: State, t: State, remaining: int, u: string)
    requires 0 < o.quantity
    requires s.balances == t.balances && s.positions == t.positions && s.markPrice == t.markPrice
    requires s.bids == t.bids && s.asks == t.asks
    ensures MatchGap(o, s, remaining, u) == MatchGap(o, t, remaining, u)
  {
  }

  /** The state after both legs, up to the counters. */
  lemma FilledGap(o: Place, m: Matching, s2: State, remaining: int, u: string)
    requires CanFill(o, m) && Positive(Makers(o, m)) && 0 < o.quantity
    requires var maker, qty := Makers(o, m)[0], FillQty(o, m);
      s2 == FillUser(m.s.WithOrders(o.side.Opposite(), MakersAfter(Makers(o, m), qty)), maker.userId, MakerFill(maker, qty))
    ensures var maker, qty := Makers(o, m)[0], FillQty(o, m);
      MatchGap(o, FilledState(o, m.s, qty), remaining, u)
        == MatchGap(o, FillUser(s2, o.userId, TakerFill(o, maker.price, qty)), remaining, u)
  {
    hide FillUser, MatchGap, MakersAfter;
    SameMatchGap(o, FillUser(s2, o.userId, TakerFill(o, Makers(o, m)[0].price, FillQty(o, m))),
                 FilledState(o, m.s, FillQty(o, m)), remaining, u);
  }

  lemma FillQtyBounds(o: Place, m: Matching)
    requires Ready(o, m) && CanFill(o, m)
    ensures Makers(o, m) != [] && 0 < FillQty(o, m) <= m.remaining <= o.quantity && 0 < o.margin
  {
    ReadyPositive(o, m);
  }

  lemma ShrinksAbs(x: real, y: real)
    requires Shrinks(x, y)
    ensures AbsR(y) <= AbsR(x)
  {
  }

  lemma FillStepGap(o: Place, ts: nat, m: Matching, u: string)
    requires Ready(o, m) && CanFill(o, m)
    ensures AbsR(MatchGap(o, FilledState(o, m.s, FillQty(o, m)), m.remaining - FillQty(o, m), u))
         <= AbsR(MatchGap(o, m.s, m.remaining, u)) + (if u == o.userId then 0.5 else 0.0)
  {
    hide Ready, CanFill, FillUser, MatchGap, MakersAfter, BookOk, Sound, AbsR, Shrinks, FilledState, FillQty,
      ExactShare, MakerFillMargin, TakerShare;
    ReadyPositive(o, m);
    FillQtyBounds(o, m);
    var qty, maker := FillQty(o, m), Makers(o, m)[0];
    var s1 := m.s.WithOrders(o.side.Opposite(), MakersAfter(Makers(o, m), qty));
    var s2 := FillUser(s1, maker.userId, MakerFill(maker, qty));
    MakerLegOk(o, m, s1, s2, qty);
    MakerLegGap(o, m, s1, s2, qty, u);
    ShrinksAbs(MatchGap(o, m.s, m.remaining, u), MatchGap(o, s2, m.remaining, u));
    TakerLegGap(o, s2, FillUser(s2, o.userId, TakerFill(o, maker.price, qty)), m.remaining, maker.price, qty, u);
    FilledGap(o, m, s2, m.remaining - qty, u);
  }

  /** The gap, less half a unit for each of the taker's fills so far. */
  ghost function ExcessGap(o: Place, m: Matching, u: string): real
    requires 0 < o.quantity
  {
    AbsR(MatchGap(o, m.s, m.remaining, u)) - (if u == o.userId then |m.legs| as real / 4.0 else 0.0)
  }

  lemma FillStepCounters(o: Place, ts: nat, m: Matching)
    requires 0 < o.quantity && CanFill(o, m) && Positive(Makers(o, m))
    ensures var n := FillStep(o, ts, m);
      && n.s == FilledState(o, m.s, FillQty(o, m))
      && n.remaining == m.remaining - FillQty(o, m) && |n.legs| == |m.legs| + 2
  {
    hide FilledState, StepDrafts, RoundDiv, Touch, MakerLeg, TakerLeg;
  }

  lemma ExcessFalls(o: Place, m: Matching, n: Matching, u: string)
    requires 0 < o.quantity && |n.legs| == |m.legs| + 2
    requires AbsR(MatchGap(o, n.s, n.remaining, u))
          <= AbsR(MatchGap(o, m.s, m.remaining, u)) + (if u == o.userId then 0.5 else 0.0)
    ensures ExcessGap(o, n, u) <= ExcessGap(o, m, u)
  {
    hide MatchGap, AbsR;
    assert |n.legs| as real == |m.legs| as real + 2.0;
  }

  lemma FillStepExcess(o: Place, ts: nat, m: Matching, u: string)
    requires Ready(o, m) && CanFill(o, m)
    ensures ExcessGap(o, FillStep(o, ts, m), u) <= ExcessGap(o, m, u)
  {
    hide *;
    ReadyPositive(o, m);
    FillStepCounters(o, ts, m);
    FillStepGap(o, ts, m, u);
    ExcessFalls(o, m, FillStep(o, ts, m), u);
  }

  lemma {:induction false} MatchAllExcess(o: Place, ts: nat, m: Matching, u: string)
    requires Ready(o, m)
    ensures ExcessGap(o, MatchAll(o, ts, m), u) <= ExcessGap(o, m, u)
    decreases |Makers(o, m)|, Max(0, m.remaining)
  {
    hide *;
    MatchUnfold(o, ts, m);
    if CanFill(o, m) {
      FillStepExcess(o, ts, m, u);
      MatchAllExcess(o, ts, FillStep(o, ts, m), u);
    }
  }

  // ----- Before and after matching -----

  lemma StartGap(s: State, o: Place, u: string)
    requires Wf(s) && Refusal(s, o).None? && 0 < o.quantity
    ensures MatchGap(o, StartMatching(s, o).s, o.quantity, u) == LockedGap(s, u) as real
  {
    WholeShare(o);
  }

  lemma RemainderGap(o: Place, ts: nat, m: Matching, u: string)
    requires Ready(o, m)
    ensures AbsR(LockedGap(HandleRemainder(o, ts, m).s, u) as real)
         <= AbsR(MatchGap(o, m.s, m.remaining, u)) + (if u == o.userId && 0 < m.remaining then 0.5 else 0.0)
  {
    ExactShareFacts(o, m.remaining, m.remaining);
    TakerShareBounds(o, m.remaining);
    if 0 < m.remaining {
      if o.orderType.LIMIT? {
        MarginInsert(m.s.Orders(o.side), RestingOrder(o, ts, m), u);
      } else {
        RestingMarginNonNegative(m.s, u);
        assert Sound(AccountOf(m.s, u), m.s.market.maintenanceMarginRate);
        var share := TakerShare(o, m.remaining);
        var p := m.s.PositionOf(u).margin;
        ReleaseShrinks(m.s.BalanceOf(u), share, p + share, RestingMargin(m.s, u) as real);
      }
    }
  }

  lemma {:induction false} EnsureAllGap(s: State, users: seq<string>, u: string)
    ensures LockedGap(EnsureAll(s, users), u) == LockedGap(s, u)
    decreases |users|
  {
    if users != [] {
      EnsureAllGap(EnsurePosition(s, users[0]), users[1..], u);
    }
  }

  lemma PlaceGap(s: State, e: Event, u: string)
    requires Wf(s) && e.Admitted() && e.payload.PlaceOrder? && !AlreadyApplied(s, e)
    ensures 2 * Abs(LockedGap(Dispatch(s, e).0, u)) <= 2 * Abs(LockedGap(s, u)) + Allocations(s, e, u)
  {
    var o := e.payload.order;
    WfPositive(s);
    PlaceIs(s, e);
    hide Dispatch, Wf, Positive, AlreadyApplied;
    if Refusal(s, o).None? {
      hide Ready, MatchAll, MatchGap, LockedGap, HandleRemainder, EnsureAll, OrderDrafts, Refusal, CanFill;
      var m0 := StartMatching(s, o);
      StartMatchingReady(s, o);
      var m := MatchAll(o, e.ts, m0);
      StartGap(s, o, u);
      MatchAllExcess(o, e.ts, m0, u);
      MatchAllReady(o, e.ts, m0);
      RemainderGap(o, e.ts, m, u);
      EnsureAllGap(HandleRemainder(o, e.ts, m).s, m.affected, u);
    }
  }

  // ----- The other events -----

  /** A resting order's margin is non-negative and backed by what stays on the book. */
  lemma RemovedMargin(s: State, side: Side, i: nat, v: string)
    requires Wf(s) && i < |s.Orders(side)|
    ensures var o, s1 := s.Orders(side)[i], s.WithOrders(side, Remove(s.Orders(side), i));
      && 0 <= o.margin && 0 <= RestingMargin(s1, v)
      && RestingMargin(s1, v) == RestingMargin(s, v) - (if o.userId == v then o.margin else 0)
  {
    var orders := s.Orders(side);
    MarginRemove(orders, i, v);
    RemoveOk(side, orders, i);
    var s1 := s.WithOrders(side, Remove(orders, i));
    MarginNonNegative(s1.bids, v);
    MarginNonNegative(s1.asks, v);
  }

  lemma SoundAccount(s: State, v: string)
    requires Wf(s)
    ensures Sound(AccountOf(s, v), s.market.maintenanceMarginRate)
  {
  }

  lemma CancelGap(s: State, u: string, orderId: string, side: Side, price: int, c: Option<string>, v: string)
    requires Wf(s)
    ensures Abs(LockedGap(OnCancelOrder(s, u, orderId, side, price, c).0, v)) <= Abs(LockedGap(s, v))
  {
    var orders := s.Orders(side);
    var i := Find(orders, price, orderId);
    SoundAccount(s, v);
    if i < |orders| && orders[i].userId == u {
      RemovedMargin(s, side, i, v);
      hide Wf, Find, Remove, RestingMargin;
      if v == u {
        var s1 := s.WithOrders(side, Remove(orders, i));
        var a := orders[i].margin;
        ReleaseShrinks(s.BalanceOf(u), a, s.PositionOf(u).margin + a, RestingMargin(s1, u) as real);
        SameResting(s1, OnCancelOrder(s, u, orderId, side, price, c).0, v);
      } else {
        SameResting(s.WithOrders(side, Remove(orders, i)), OnCancelOrder(s, u, orderId, side, price, c).0, v);
      }
    }
  }

  lemma SameResting(s: State, t: State, v: string)
    requires s.bids == t.bids && s.asks == t.asks
    ensures RestingMargin(s, v) == RestingMargin(t, v)
  {
  }

  lemma TickGap(s: State, price: int, observerSeq: int, u: string)
    requires Wf(s)
    ensures Abs(LockedGap(OnIndexPrice(s, price, observerSeq).0, u)) <= Abs(LockedGap(s, u))
  {
    if s.lastObserverSeq < observerSeq {
      var s1 := MarkToMarket(s.(lastObserverSeq := observerSeq), price);
      SameAccountsOk(s, s.(lastObserverSeq := observerSeq));
      MarkToMarketOk(s.(lastObserverSeq := observerSeq), price);
      assert LockedGap(s1, u) == LockedGap(s, u);
      SweptAccount(s1, price, u);
      var t := Sweep(s1, price);
      assert LockedGap(t, u) == AccountOf(t, u).balance.locked - RestingMargin(s, u) - AccountOf(t, u).position.margin;
      if Doomed(s1, u, price) {
        RestingMarginNonNegative(s, u);
        assert Sound(AccountOf(s1, u), s1.market.maintenanceMarginRate);
        ReleaseShrinks(s1.BalanceOf(u), s1.PositionOf(u).margin, s1.PositionOf(u).margin, RestingMargin(s, u) as real);
      }
    }
  }

  lemma DispatchGap(s: State, e: Event, u: string)
    requires Wf(s) && e.Admitted() && !AlreadyApplied(s, e)
    ensures 2 * Abs(LockedGap(Dispatch(s, e).0, u)) <= 2 * Abs(LockedGap(s, u)) + Allocations(s, e, u)
  {
    match e.payload
    case PlaceOrder(_) => hide *; PlaceGap(s, e, u);
    case CancelOrder(v, orderId, side, price) =>
      hide Wf, OnCancelOrder; CancelGap(s, v, orderId, side, price, e.commandId, u);
    case IndexPriceUpdated(price, observerSeq) =>
      hide Wf, OnIndexPrice; TickGap(s, price, observerSeq, u);
    case _ =>
  }

  lemma SameGap(s: State, t: State, u: string)
    requires s.balances == t.balances && s.positions == t.positions && s.markPrice == t.markPrice
    requires s.bids == t.bids && s.asks == t.asks
    ensures LockedGap(s, u) == LockedGap(t, u)
  {
  }

  /** One event widens the gap by at most half a unit per share it rounds. */
  lemma StepGap(s: State, e: Event, id: StreamId, u: string)
    requires Wf(s) && e.Admitted()
    ensures 2 * Abs(LockedGap(Step(s, e, id), u)) <= 2 * Abs(LockedGap(s, u)) + Allocations(s, e, u)
  {
    if AlreadyApplied(s, e) {
      SameGap(s, Step(s, e, id), u);
    } else {
      DispatchGap(s, e, u);
      SameGap(Dispatch(s, e).0, Step(s, e, id), u);
    }
  }

  /** Over every run from genesis. */
  lemma {:induction false} LockedAccountsForObligations(market: MarketConfig, es: seq<Input>, u: string)
    requires AllAdmitted(es)
    ensures Wf(CreateState(market))
    ensures 2 * Abs(LockedGap(Run(CreateState(market), es), u)) <= TotalAllocations(CreateState(market), es, u)
  {
    GenesisWf(market);
    if es != [] {
      var n := |es| - 1;
      LockedAccountsForObligations(market, es[..n], u);
      StepGap(Run(CreateState(market), es[..n]), es[n].event, es[n].id, u);
    }
  }
}
