/** Well-formedness of the state, kept by every event. */
module Invariants {
  import opened Money
  import opened States
  import opened JsMaps
  import opened Accounts
  import opened EngineSpec
  import opened Book

  /** Both sides in strict price-time priority, nothing exhausted, sequence numbers
      already issued, and the best bid below the best ask. */
  ghost predicate BookOk(s: State)
  {
    && SideOk(Bid, s.bids) && SideOk(Ask, s.asks)
    && (forall i :: 0 <= i < |s.bids| ==> s.bids[i].seqNo <= s.seqNo)
    && (forall i :: 0 <= i < |s.asks| ==> s.asks[i].seqNo <= s.seqNo)
    && (s.bids != [] && s.asks != [] ==> s.bids[0].price < s.asks[0].price)
  }

  /** Everyone with a position or a resting order has a balance. */
  ghost predicate UsersOk(s: State)
  {
    && s.balances.Ok() && s.positions.Ok()
    && (forall u :: u in s.positions.at ==> u in s.balances.at)
    && (forall i :: 0 <= i < |s.bids| ==> s.bids[i].userId in s.balances.at)
    && (forall i :: 0 <= i < |s.asks| ==> s.asks[i].userId in s.balances.at)
  }

  ghost predicate AccountsOk(s: State)
  {
    forall u :: Sound(AccountOf(s, u), s.market.maintenanceMarginRate)
  }

  ghost predicate WindowOk(s: State)
  {
    NoDuplicates(s.appliedCommandIds) && |s.appliedCommandIds| <= MAX_APPLIED_COMMANDS
  }

  ghost predicate Wf(s: State)
  {
    BookOk(s) && UsersOk(s) && AccountsOk(s) && WindowOk(s)
  }

  lemma GenesisWf(market: MarketConfig)
    ensures Wf(CreateState(market))
  {
  }

  lemma WfPositive(s: State)
    requires Wf(s)
    ensures Positive(s.bids) && Positive(s.asks)
  {
  }

  /** An admitted order is placed with positive amounts. */
  lemma PlaceIs(s: State, e: Event)
    requires Positive(s.bids) && Positive(s.asks) && e.Admitted() && e.payload.PlaceOrder?
    ensures var o := e.payload.order;
      && 0 < o.quantity && 0 < o.margin && 0 <= o.price && 0 < o.leverage
      && Positive(s.Orders(o.side.Opposite()))
      && Dispatch(s, e) == OnPlaceOrder(s, o, e.ts, e.commandId)
  {
    hide OnPlaceOrder;
  }

  lemma CancelIs(s: State, e: Event)
    requires Positive(s.bids) && Positive(s.asks) && e.Admitted() && e.payload.CancelOrder?
    ensures var c := e.payload;
      Dispatch(s, e) == OnCancelOrder(s, c.userId, c.orderId, c.side, c.price, e.commandId)
  {
    hide OnCancelOrder;
  }

  lemma TickIs(s: State, e: Event)
    requires Positive(s.bids) && Positive(s.asks) && e.Admitted() && e.payload.IndexPriceUpdated?
    ensures Dispatch(s, e) == OnIndexPrice(s, e.payload.price, e.payload.observerSeq)
  {
    hide OnIndexPrice;
  }

  lemma CreateIs(s: State, e: Event)
    requires Positive(s.bids) && Positive(s.asks) && e.Admitted() && e.payload.UserCreated?
    ensures Dispatch(s, e) == OnUserCreated(s, e.payload.userId, e.payload.openingBalance)
  {
    hide OnUserCreated;
  }

  lemma DepositIs(s: State, e: Event)
    requires Positive(s.bids) && Positive(s.asks) && e.Admitted() && e.payload.BalanceDeposited?
    ensures Dispatch(s, e) == OnBalanceDeposited(s, e.payload.userId, e.payload.amount)
  {
    hide OnBalanceDeposited;
  }

  // ----- Accounts -----

  lemma PutAccountOk(s: State, u: string, a: Account)
    requires UsersOk(s) && AccountsOk(s) && u in s.balances.at
    requires Sound(a, s.market.maintenanceMarginRate)
    ensures UsersOk(PutAccount(s, u, a)) && AccountsOk(PutAccount(s, u, a))
  {
    var t := PutAccount(s, u, a);
    forall v ensures Sound(AccountOf(t, v), s.market.maintenanceMarginRate) {
      assert AccountOf(t, v) == if v == u then a else AccountOf(s, v);
    }
  }

  lemma PutBalanceOk(s: State, u: string, b: Balance)
    requires UsersOk(s) && AccountsOk(s)
    requires Sound(Account(b, s.PositionOf(u)), s.market.maintenanceMarginRate)
    ensures UsersOk(PutBalance(s, u, b)) && AccountsOk(PutBalance(s, u, b))
  {
    var t := PutBalance(s, u, b);
    forall v ensures Sound(AccountOf(t, v), s.market.maintenanceMarginRate) {
      assert AccountOf(t, v) == if v == u then Account(b, s.PositionOf(u)) else AccountOf(s, v);
    }
  }

  lemma FillUserOk(s: State, u: string, f: Fill)
    requires UsersOk(s) && AccountsOk(s) && u in s.balances.at
    requires 0 < f.qty && 0 <= f.margin && 0 <= f.price && 0 < f.leverage
    ensures UsersOk(FillUser(s, u, f)) && AccountsOk(FillUser(s, u, f))
  {
    var mmr := s.market.maintenanceMarginRate;
    assert Sound(AccountOf(s, u), mmr);
    ApplyFillSound(AccountOf(s, u), f, mmr);
    PutAccountOk(s, u, ApplyFill(AccountOf(s, u), f, mmr));
  }

  lemma EnsurePositionOk(s: State, u: string)
    requires Wf(s) && u in s.balances.at
    ensures Wf(EnsurePosition(s, u))
  {
    assert forall v :: AccountOf(EnsurePosition(s, u), v) == AccountOf(s, v);
  }

  lemma {:induction false} EnsureAllOk(s: State, users: seq<string>)
    requires Wf(s) && forall u :: u in users ==> u in s.balances.at
    ensures Wf(EnsureAll(s, users))
    decreases |users|
  {
    if users != [] {
      EnsurePositionOk(s, users[0]);
      EnsureAllOk(EnsurePosition(s, users[0]), users[1..]);
    }
  }

  // ----- The matching loop -----

  ghost predicate Ready(o: Place, m: Matching)
  {
    && BookOk(m.s) && UsersOk(m.s) && AccountsOk(m.s)
    && 0 < o.quantity && 0 < o.margin && 0 < o.leverage && 0 <= o.price
    && o.userId in m.s.balances.at
    && 0 <= m.remaining <= o.quantity
  }

  lemma MakerMarginBounds(maker: Order, qty: int)
    requires 0 < qty <= maker.remaining && 0 <= maker.margin
    ensures 0 <= MakerFillMargin(maker, qty) <= maker.margin
    ensures qty == maker.remaining ==> MakerFillMargin(maker, qty) == maker.margin
  {
    ShareBounds(qty, maker.remaining, maker.margin);
  }

  lemma TakerShareBounds(o: Place, qty: int)
    requires 0 <= qty <= o.quantity && 0 < o.quantity && 0 <= o.margin
    ensures 0 <= TakerShare(o, qty) <= o.margin
  {
    ShareBounds(qty, o.quantity, o.margin);
  }

  /** What is left of a consumed side comes from the same positions, shifted by the order
      that was used up. */
  lemma MakersAfterFrom(s: seq<Order>, qty: int)
    requires s != []
    ensures var r := MakersAfter(s, qty);
      && |s| - 1 <= |r| <= |s|
      && forall i :: 0 <= i < |r| ==>
           var x := s[i + |s| - |r|];
           r[i].seqNo == x.seqNo && r[i].userId == x.userId && r[i].price == x.price && (0 < i ==> r[i] == x)
  {
    hide MakerFillMargin;
    var r, x := MakersAfter(s, qty), MakerAfter(s[0], qty);
    if x.remaining <= 0 { assert r == s[1..]; } else { assert r == [x] + s[1..]; }
  }

  lemma MakersAfterOk(side: Side, s: seq<Order>, qty: int)
    requires SideOk(side, s) && s != [] && 0 < qty <= s[0].remaining
    ensures SideOk(side, MakersAfter(s, qty))
  {
    MakerMarginBounds(s[0], qty);
    MakersAfterFrom(s, qty);
    hide MakerFillMargin;
    var r := MakersAfter(s, qty);
    forall i | 0 <= i < |r| ensures WellPlaced(r[i], side) {
      assert WellPlaced(s[i + |s| - |r|], side);
    }
    hide MakersAfter, WellPlaced;
    forall i, j | 0 <= i < j < |r| ensures Precedes(side, r[i], r[j]) {
      assert Precedes(side, s[i + |s| - |r|], s[j + |s| - |r|]);
    }
  }

  /** The best price of a side never improves when it is consumed. */
  lemma MakersAfterBest(side: Side, s: seq<Order>, qty: int)
    requires SideOk(side, s) && s != [] && 0 < qty <= s[0].remaining && MakersAfter(s, qty) != []
    ensures !BetterFirst(side, MakersAfter(s, qty)[0].price, s[0].price)
  {
    if MakerAfter(s[0], qty).remaining <= 0 {
      assert Precedes(side, s[0], s[1]);
    }
  }

  lemma ConsumedBookOk(o: Place, s: State, qty: int)
    requires BookOk(s) && s.Orders(o.side.Opposite()) != []
    requires 0 < qty <= s.Orders(o.side.Opposite())[0].remaining
    ensures BookOk(s.WithOrders(o.side.Opposite(), MakersAfter(s.Orders(o.side.Opposite()), qty)))
  {
    var side := o.side.Opposite();
    MakersAfterOk(side, s.Orders(side), qty);
    MakersAfterFrom(s.Orders(side), qty);
    if MakersAfter(s.Orders(side), qty) != [] {
      MakersAfterBest(side, s.Orders(side), qty);
    }
    hide MakersAfter, SideOk;
  }

  lemma FilledBookOk(o: Place, m: Matching, qty: int)
    requires Ready(o, m) && CanFill(o, m) && qty == FillQty(o, m)
    ensures BookOk(FilledState(o, m.s, qty))
  {
    var side := o.side.Opposite();
    ConsumedBookOk(o, m.s, qty);
    var s1 := m.s.WithOrders(side, MakersAfter(Makers(o, m), qty));
    var t := FilledState(o, m.s, qty);
    assert t.bids == s1.bids && t.asks == s1.asks && t.seqNo == s1.seqNo + 1;
  }

  lemma FilledAccountsOk(o: Place, m: Matching, qty: int)
    requires Ready(o, m) && CanFill(o, m) && qty == FillQty(o, m)
    ensures UsersOk(FilledState(o, m.s, qty)) && AccountsOk(FilledState(o, m.s, qty))
  {
    var side := o.side.Opposite();
    var maker := Makers(o, m)[0];
    var s1 := m.s.WithOrders(side, MakersAfter(Makers(o, m), qty));
    ConsumedUsersOk(o, m.s, qty);
    MakerMarginBounds(maker, qty);
    FillUserOk(s1, maker.userId, MakerFill(maker, qty));
    var s2 := FillUser(s1, maker.userId, MakerFill(maker, qty));
    TakerShareBounds(o, qty);
    FillUserOk(s2, o.userId, TakerFill(o, maker.price, qty));
    var s3 := FillUser(s2, o.userId, TakerFill(o, maker.price, qty));
    SameAccountsOk(s3, FilledState(o, m.s, qty));
  }

  lemma ConsumedUsersOk(o: Place, s: State, qty: int)
    requires BookOk(s) && UsersOk(s) && AccountsOk(s) && s.Orders(o.side.Opposite()) != []
    requires 0 < qty <= s.Orders(o.side.Opposite())[0].remaining
    ensures var t := s.WithOrders(o.side.Opposite(), MakersAfter(s.Orders(o.side.Opposite()), qty));
      UsersOk(t) && AccountsOk(t)
  {
    var side := o.side.Opposite();
    MakersAfterFrom(s.Orders(side), qty);
    hide MakersAfter, SideOk;
    var t := s.WithOrders(side, MakersAfter(s.Orders(side), qty));
    assert forall u :: AccountOf(t, u) == AccountOf(s, u);
  }

  lemma SameAccountsOk(s: State, t: State)
    requires UsersOk(s) && AccountsOk(s)
    requires t.market == s.market && t.balances == s.balances && t.positions == s.positions
    requires t.bids == s.bids && t.asks == s.asks && t.markPrice == s.markPrice
    ensures UsersOk(t) && AccountsOk(t)
  {
    assert forall u :: AccountOf(t, u) == AccountOf(s, u);
  }

  /** The parts of one iteration, for proofs that hide its definition. */
  lemma FillStepShape(o: Place, ts: nat, m: Matching)
    requires 0 < o.quantity && CanFill(o, m) && Positive(Makers(o, m))
    ensures var n, maker, qty := FillStep(o, ts, m), Makers(o, m)[0], FillQty(o, m);
      && n.s == FilledState(o, m.s, qty)
      && Makers(o, n) == MakersAfter(Makers(o, m), qty)
      && n.remaining == m.remaining - qty
      && n.affected == AddOnce(m.affected, maker.userId)
      && n.outs == m.outs + StepDrafts(o, ts, maker, qty, m.remaining - qty, n.s)
      && n.legs == m.legs + [MakerLeg(o, m), TakerLeg(o, m)]
  {
  }

  lemma ReadyPositive(o: Place, m: Matching)
    requires Ready(o, m)
    ensures 0 < o.quantity && Positive(Makers(o, m)) && SideOk(o.side.Opposite(), Makers(o, m))
  {
  }

  lemma FillStepReady(o: Place, ts: nat, m: Matching)
    requires Ready(o, m) && CanFill(o, m)
    ensures Ready(o, FillStep(o, ts, m))
  {
    FilledBookOk(o, m, FillQty(o, m));
    FilledAccountsOk(o, m, FillQty(o, m));
  }

  lemma FillStepRank(o: Place, ts: nat, m: Matching)
    requires 0 < o.quantity && CanFill(o, m) && Positive(Makers(o, m))
    ensures var n := FillStep(o, ts, m);
      || |Makers(o, n)| < |Makers(o, m)|
      || (|Makers(o, n)| == |Makers(o, m)| && Max(0, n.remaining) < Max(0, m.remaining))
  {
    FillStepShape(o, ts, m);
    hide FillStep;
  }

  /** One turn of the matching loop, for proofs that follow it and hide its parts. */
  lemma MatchUnfold(o: Place, ts: nat, m: Matching)
    requires Ready(o, m)
    ensures 0 < o.quantity && Positive(Makers(o, m)) && 0 <= Max(0, m.remaining)
    ensures !CanFill(o, m) ==> MatchAll(o, ts, m) == m
    ensures CanFill(o, m) ==>
      var n := FillStep(o, ts, m);
      && Ready(o, n) && Positive(Makers(o, n)) && MatchAll(o, ts, m) == MatchAll(o, ts, n)
      && (|Makers(o, n)| < |Makers(o, m)|
          || (|Makers(o, n)| == |Makers(o, m)| && Max(0, n.remaining) < Max(0, m.remaining)))
  {
    ReadyPositive(o, m);
    hide FillStep, Ready;
    if CanFill(o, m) {
      FillStepReady(o, ts, m);
      ReadyPositive(o, FillStep(o, ts, m));
      FillStepRank(o, ts, m);
    }
  }

  lemma {:induction false} MatchAllReady(o: Place, ts: nat, m: Matching)
    requires Ready(o, m)
    ensures Ready(o, MatchAll(o, ts, m)) && !CanFill(o, MatchAll(o, ts, m))
    decreases |Makers(o, m)|, Max(0, m.remaining)
  {
    hide *;
    MatchUnfold(o, ts, m);
    if CanFill(o, m) {
      MatchAllReady(o, ts, FillStep(o, ts, m));
    }
  }

  lemma StartMatchingReady(s: State, o: Place)
    requires Wf(s) && Refusal(s, o).None? && 0 < o.quantity && 0 < o.margin && 0 <= o.price
    ensures Ready(o, StartMatching(s, o))
  {
    assert Sound(AccountOf(s, o.userId), s.market.maintenanceMarginRate);
    PutBalanceOk(s, o.userId, Lock(s.BalanceOf(o.userId), o.margin));
  }

  lemma RestedBookOk(o: Place, ts: nat, m: Matching)
    requires Ready(o, m) && !CanFill(o, m) && 0 < m.remaining && o.orderType.LIMIT?
    ensures BookOk(HandleRemainder(o, ts, m).s)
  {
    var r := RestingOrder(o, ts, m);
    TakerShareBounds(o, m.remaining);
    InsertOk(o.side, m.s.Orders(o.side), r);
    var own := Insert(m.s.Orders(o.side), r);
    assert own[0] == r || own[0] == m.s.Orders(o.side)[0];
    var t := HandleRemainder(o, ts, m).s;
    assert t.Orders(o.side) == own && t.Orders(o.side.Opposite()) == Makers(o, m);
    forall i | 0 <= i < |own| ensures own[i].seqNo <= t.seqNo { assert own[i] in own; }
  }

  lemma HandleRemainderReady(o: Place, ts: nat, m: Matching)
    requires Ready(o, m) && !CanFill(o, m)
    ensures Ready(o, HandleRemainder(o, ts, m))
  {
    if 0 < m.remaining {
      var t := HandleRemainder(o, ts, m).s;
      if o.orderType.LIMIT? {
        RestedBookOk(o, ts, m);
        TakerShareBounds(o, m.remaining);
        InsertOk(o.side, m.s.Orders(o.side), RestingOrder(o, ts, m));
        forall i | 0 <= i < |t.Orders(o.side)| ensures t.Orders(o.side)[i].userId in t.balances.at {
          assert t.Orders(o.side)[i] in t.Orders(o.side);
        }
        assert forall u :: AccountOf(t, u) == AccountOf(m.s, u);
      } else {
        assert Sound(AccountOf(m.s, o.userId), m.s.market.maintenanceMarginRate);
        PutBalanceOk(m.s, o.userId, Release(m.s.BalanceOf(o.userId), TakerShare(o, m.remaining)));
      }
    }
  }

  lemma ExecutedReady(s: State, o: Place, ts: nat)
    requires Wf(s) && Refusal(s, o).None? && 0 < o.quantity && 0 < o.margin && 0 <= o.price
    ensures Ready(o, Executed(s, o, ts))
  {
    StartMatchingReady(s, o);
    MatchAllReady(o, ts, StartMatching(s, o));
    HandleRemainderReady(o, ts, MatchAll(o, ts, StartMatching(s, o)));
  }

  lemma OnPlaceOrderWf(s: State, o: Place, ts: nat, commandId: Option<string>)
    requires Wf(s) && 0 < o.quantity && 0 < o.margin && 0 <= o.price
    ensures Wf(OnPlaceOrder(s, o, ts, commandId).0)
  {
    WfPositive(s);
    if Refusal(s, o).None? {
      hide Executed, Refusal, EnsureAll, OrderDrafts, Positive, BookOk, UsersOk, AccountsOk;
      ExecutedReady(s, o, ts);
      var m := Executed(s, o, ts);
      MatchedFrame(s, o, ts);
      EnsureAllOk(m.s, m.affected);
    }
  }

  /** What placing an order leaves alone, and who it reports on. */
  ghost predicate Frame(s: State, m: Matching)
  {
    && m.s.market == s.market && m.s.markPrice == s.markPrice
    && m.s.appliedCommandIds == s.appliedCommandIds && m.s.lastObserverSeq == s.lastObserverSeq
    && m.s.lastInputId == s.lastInputId && m.s.appliedCount == s.appliedCount
    && s.seqNo <= m.s.seqNo
    && NoDuplicates(m.affected)
    && (forall u :: u in m.affected ==> u in m.s.balances.at)
    && (forall u :: u in s.balances.at ==> u in m.s.balances.at)
  }

  lemma FillStepFrame(s: State, o: Place, ts: nat, m: Matching)
    requires Ready(o, m) && CanFill(o, m) && Frame(s, m)
    ensures Frame(s, FillStep(o, ts, m))
  {
  }

  lemma {:induction false} MatchAllFrame(s: State, o: Place, ts: nat, m: Matching)
    requires Ready(o, m) && Frame(s, m)
    ensures Frame(s, MatchAll(o, ts, m))
    decreases |Makers(o, m)|, Max(0, m.remaining)
  {
    hide *;
    MatchUnfold(o, ts, m);
    if CanFill(o, m) {
      FillStepFrame(s, o, ts, m);
      MatchAllFrame(s, o, ts, FillStep(o, ts, m));
    }
  }

  lemma HandleRemainderFrame(s: State, o: Place, ts: nat, m: Matching)
    requires Ready(o, m) && Frame(s, m)
    ensures Frame(s, HandleRemainder(o, ts, m))
  {
  }

  lemma StartFrame(s: State, o: Place)
    requires Wf(s) && Refusal(s, o).None?
    ensures Frame(s, StartMatching(s, o))
  {
  }

  lemma MatchedFrame(s: State, o: Place, ts: nat)
    requires Wf(s) && Refusal(s, o).None? && 0 < o.quantity && 0 < o.margin && 0 <= o.price
    ensures Frame(s, Executed(s, o, ts))
  {
    StartMatchingReady(s, o);
    StartFrame(s, o);
    MatchAllFrame(s, o, ts, StartMatching(s, o));
    MatchAllReady(o, ts, StartMatching(s, o));
    HandleRemainderFrame(s, o, ts, MatchAll(o, ts, StartMatching(s, o)));
  }

  // ----- The other events -----

  /** Removing an order does not improve the best price of its side. */
  lemma RemoveBest(side: Side, s: seq<Order>, i: nat)
    requires SideOk(side, s) && i < |s| && Remove(s, i) != []
    ensures !BetterFirst(side, Remove(s, i)[0].price, s[0].price)
  {
    if i == 0 {
      assert Remove(s, i)[0] == s[1] && Precedes(side, s[0], s[1]);
    } else {
      assert Remove(s, i)[0] == s[0];
    }
  }

  lemma RemovedFrom(s: seq<Order>, i: nat)
    requires i < |s|
    ensures forall j :: 0 <= j < |Remove(s, i)| ==> Remove(s, i)[j] in s
  {
  }

  lemma RemovedSeqs(s: seq<Order>, i: nat, n: nat)
    requires i < |s| && forall j :: 0 <= j < |s| ==> s[j].seqNo <= n
    ensures forall j :: 0 <= j < |Remove(s, i)| ==> Remove(s, i)[j].seqNo <= n
  {
  }

  lemma RemovedBookOk(s: State, side: Side, i: nat)
    requires BookOk(s) && i < |s.Orders(side)|
    ensures BookOk(s.WithOrders(side, Remove(s.Orders(side), i)))
  {
    var orders := s.Orders(side);
    var r := Remove(orders, i);
    RemoveOk(side, orders, i);
    hide SideOk, Remove;
    RemovedFrom(orders, i);
    RemovedSeqs(orders, i, s.seqNo);
    if r != [] { RemoveBest(side, orders, i); }
  }

  lemma RemovedUsersOk(s: State, side: Side, i: nat)
    requires UsersOk(s) && AccountsOk(s) && i < |s.Orders(side)|
    ensures var t := s.WithOrders(side, Remove(s.Orders(side), i)); UsersOk(t) && AccountsOk(t)
  {
    var r := Remove(s.Orders(side), i);
    assert forall j :: 0 <= j < |r| ==> r[j] in s.Orders(side);
    var t := s.WithOrders(side, r);
    assert forall v :: AccountOf(t, v) == AccountOf(s, v);
  }

  lemma ReleasedWf(s: State, u: string, amount: int)
    requires Wf(s)
    ensures Wf(PutBalance(s, u, Release(s.BalanceOf(u), amount)))
  {
    assert Sound(AccountOf(s, u), s.market.maintenanceMarginRate);
    PutBalanceOk(s, u, Release(s.BalanceOf(u), amount));
  }

  lemma OnCancelOrderWf(s: State, u: string, orderId: string, side: Side, price: int, commandId: Option<string>)
    requires Wf(s)
    ensures Wf(OnCancelOrder(s, u, orderId, side, price, commandId).0)
  {
    var orders := s.Orders(side);
    var i := Find(orders, price, orderId);
    if i < |orders| && orders[i].userId == u {
      RemovedBookOk(s, side, i);
      RemovedUsersOk(s, side, i);
      var s1 := s.WithOrders(side, Remove(orders, i));
      assert Wf(s1);
      hide Wf, Find, Remove;
      ReleasedWf(s1, u, orders[i].margin);
    }
  }

  lemma MarkToMarketOk(s: State, mark: int)
    requires UsersOk(s) && AccountsOk(s)
    ensures UsersOk(MarkToMarket(s, mark)) && AccountsOk(MarkToMarket(s, mark))
  {
    var t := MarkToMarket(s, mark);
    forall u ensures Sound(AccountOf(t, u), s.market.maintenanceMarginRate) {
      assert Sound(AccountOf(s, u), s.market.maintenanceMarginRate);
    }
  }

  lemma SweepOk(s: State, mark: int)
    requires UsersOk(s) && AccountsOk(s)
    ensures UsersOk(Sweep(s, mark)) && AccountsOk(Sweep(s, mark))
  {
    var t := Sweep(s, mark);
    forall u ensures Sound(AccountOf(t, u), s.market.maintenanceMarginRate) {
      assert Sound(AccountOf(s, u), s.market.maintenanceMarginRate);
      SweptAccount(s, mark, u);
      LiquidateSound(AccountOf(s, u), mark, s.market.maintenanceMarginRate);
    }
  }

  /** A sweep acts on each account separately. */
  lemma SweptAccount(s: State, mark: int, u: string)
    requires UsersOk(s)
    ensures AccountOf(Sweep(s, mark), u)
         == if Doomed(s, u, mark) then Liquidate(AccountOf(s, u), mark) else AccountOf(s, u)
  {
  }

  lemma OnIndexPriceWf(s: State, price: int, observerSeq: int)
    requires Wf(s)
    ensures Wf(OnIndexPrice(s, price, observerSeq).0)
  {
    if s.lastObserverSeq < observerSeq {
      var s0 := s.(lastObserverSeq := observerSeq);
      SameAccountsOk(s, s0);
      MarkToMarketOk(s0, price);
      SweepOk(MarkToMarket(s0, price), price);
    }
  }

  lemma CreditWf(s: State, u: string, amount: int)
    requires Wf(s)
    ensures Wf(EnsureBalance(s, u))
    ensures var s1 := EnsureBalance(s, u); Wf(PutBalance(s1, u, Credit(s1.BalanceOf(u), amount)))
  {
    var s1 := EnsureBalance(s, u);
    assert Sound(AccountOf(s, u), s.market.maintenanceMarginRate);
    PutBalanceOk(s, u, s.BalanceOf(u));
    assert forall v :: AccountOf(s1, v) == AccountOf(s, v);
    PutBalanceOk(s1, u, Credit(s1.BalanceOf(u), amount));
  }

  lemma DispatchWf(s: State, e: Event)
    requires Wf(s) && e.Admitted()
    ensures Wf(Dispatch(s, e).0)
  {
    WfPositive(s);
    match e.payload
    case UserCreated(u, openingBalance) => CreateIs(s, e); CreditWf(s, u, openingBalance); hide Wf, Dispatch;
    case BalanceDeposited(u, amount) => DepositIs(s, e); CreditWf(s, u, amount); hide Wf, Dispatch;
    case PlaceOrder(o) => hide *; PlaceIs(s, e); OnPlaceOrderWf(s, o, e.ts, e.commandId);
    case CancelOrder(u, orderId, side, price) =>
      hide *; CancelIs(s, e); OnCancelOrderWf(s, u, orderId, side, price, e.commandId);
    case IndexPriceUpdated(price, observerSeq) => hide *; TickIs(s, e); OnIndexPriceWf(s, price, observerSeq);
  }

  lemma RecordCommandOk(s: State, e: Event)
    requires WindowOk(s) && !AlreadyApplied(s, e)
    ensures WindowOk(RecordCommand(s, e))
  {
  }

  lemma {:induction false} EnsureAllOnlyPositions(s: State, users: seq<string>)
    ensures var t := EnsureAll(s, users);
      t == s.(positions := t.positions)
    decreases |users|
  {
    if users != [] {
      EnsureAllOnlyPositions(EnsurePosition(s, users[0]), users[1..]);
    }
  }

  /** What dispatching leaves alone: the bookkeeping of the stream. */
  predicate SameBookkeeping(s: State, t: State)
  {
    && t.appliedCommandIds == s.appliedCommandIds && t.lastInputId == s.lastInputId
    && t.appliedCount == s.appliedCount && t.market == s.market && s.seqNo <= t.seqNo
  }

  lemma PlaceBookkeeping(s: State, o: Place, ts: nat, commandId: Option<string>)
    requires Wf(s) && 0 < o.quantity && 0 < o.margin && 0 <= o.price
    ensures var t := OnPlaceOrder(s, o, ts, commandId).0;
      SameBookkeeping(s, t) && t.lastObserverSeq == s.lastObserverSeq && t.markPrice == s.markPrice
  {
    if Refusal(s, o).None? {
      MatchedFrame(s, o, ts);
      var m := Executed(s, o, ts);
      EnsureAllOnlyPositions(m.s, m.affected);
      hide Executed, Wf, EnsureAll;
    }
  }

  lemma DispatchBookkeeping(s: State, e: Event)
    requires Wf(s) && e.Admitted()
    ensures var t := Dispatch(s, e).0;
      && SameBookkeeping(s, t)
      && (!e.payload.IndexPriceUpdated? ==> t.lastObserverSeq == s.lastObserverSeq && t.markPrice == s.markPrice)
  {
    match e.payload
    case PlaceOrder(o) =>
      PlaceBookkeeping(s, o, e.ts, e.commandId);
      hide OnPlaceOrder, Wf;
    case _ =>
      hide Wf;
  }

  /** Every event keeps the state well-formed. */
  lemma StepWf(s: State, e: Event, id: StreamId)
    requires Wf(s) && e.Admitted()
    ensures Wf(Step(s, e, id))
  {
    var t := Step(s, e, id);
    if AlreadyApplied(s, e) {
      SameAccountsOk(s, t);
    } else {
      DispatchWf(s, e);
      DispatchBookkeeping(s, e);
      var d := Dispatch(s, e).0;
      RecordCommandOk(d, e);
      SameAccountsOk(d, t);
    }
  }

  // ----- Runs -----

  /** A decoded entry of the input stream. */
  datatype Input = Input(id: StreamId, event: Event)

  predicate AllAdmitted(es: seq<Input>) { forall i :: 0 <= i < |es| ==> es[i].event.Admitted() }

  /** The state after a sequence of inputs. */
  ghost function Run(s: State, es: seq<Input>): (t: State)
    requires Wf(s) && AllAdmitted(es)
    ensures Wf(t)
  {
    if es == [] then s
    else
      var n := |es| - 1;
      StepWf(Run(s, es[..n]), es[n].event, es[n].id);
      Step(Run(s, es[..n]), es[n].event, es[n].id)
  }

  lemma RunUnfold(s: State, es: seq<Input>)
    requires Wf(s) && AllAdmitted(es) && es != []
    ensures var n := |es| - 1;
      AllAdmitted(es[..n]) && es[n].event.Admitted() && Run(s, es) == Step(Run(s, es[..n]), es[n].event, es[n].id)
  {
  }

  lemma RunLast(s: State, es: seq<Input>, x: Input)
    requires Wf(s) && AllAdmitted(es) && x.event.Admitted()
    ensures AllAdmitted(es + [x]) && Run(s, es + [x]) == Step(Run(s, es), x.event, x.id)
  {
    var all := es + [x];
    assert all[..|all| - 1] == es;
  }

  lemma {:induction false} RunConcat(s: State, a: seq<Input>, b: seq<Input>)
    requires Wf(s) && AllAdmitted(a) && AllAdmitted(b)
    ensures AllAdmitted(a + b) && Run(s, a + b) == Run(Run(s, a), b)
  {
    AdmittedConcat(a, b);
    if b == [] {
      assert a + b == a;
    } else {
      var n := |b| - 1;
      AdmittedConcat(a, b[..n]);
      assert AllAdmitted(b[..n]) && b[n].event.Admitted();
      assert a + b == a + b[..n] + [b[n]] && b == b[..n] + [b[n]];
      hide *;
      RunConcat(s, a, b[..n]);
      RunLast(s, a + b[..n], b[n]);
      RunLast(Run(s, a), b[..n], b[n]);
    }
  }

  lemma AdmittedConcat(a: seq<Input>, b: seq<Input>)
    requires AllAdmitted(a) && AllAdmitted(b)
    ensures AllAdmitted(a + b)
  {
  }
}
