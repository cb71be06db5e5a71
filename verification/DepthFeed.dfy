/** A client that applies the emitted depth updates holds the aggregated book. */
module DepthFeed {
  import opened Money
  import opened States
  import opened JsMaps
  import opened EngineSpec
  import opened Book
  import opened Invariants
  import Projection

  datatype Feed = Feed(bids: map<int, int>, asks: map<int, int>) {
    function At(side: Side): map<int, int> { if side.Bid? then bids else asks }
  }

  /** Set the quantity of a price; drop the price at zero. */
  function SetDepth(m: map<int, int>, price: int, quantity: int): map<int, int>
  {
    if quantity == 0 then m - {price} else m[price := quantity]
  }

  function Apply(f: Feed, d: Draft): Feed
  {
    if !d.BookDelta? then f
    else if d.side.Bid? then f.(bids := SetDepth(f.bids, d.price, d.newQuantity))
    else f.(asks := SetDepth(f.asks, d.price, d.newQuantity))
  }

  function ApplyAll(f: Feed, drafts: seq<Draft>): Feed
    decreases |drafts|
  {
    if drafts == [] then f else ApplyAll(Apply(f, drafts[0]), drafts[1..])
  }

  lemma {:induction false} ApplyConcat(f: Feed, a: seq<Draft>, b: seq<Draft>)
    ensures ApplyAll(f, a + b) == ApplyAll(ApplyAll(f, a), b)
    decreases |a|
  {
    if a == [] {
      assert a + b == b;
    } else {
      assert (a + b)[1..] == a[1..] + b;
      ApplyConcat(Apply(f, a[0]), a[1..], b);
    }
  }

  predicate NoDeltas(drafts: seq<Draft>) { forall i :: 0 <= i < |drafts| ==> !drafts[i].BookDelta? }

  lemma {:induction false} NoDeltasKeep(f: Feed, drafts: seq<Draft>)
    requires NoDeltas(drafts)
    ensures ApplyAll(f, drafts) == f
  {
    if drafts != [] {
      NoDeltasKeep(f, drafts[1..]);
    }
  }

  lemma ApplyOne(f: Feed, d: Draft)
    ensures ApplyAll(f, [d]) == Apply(f, d)
  {
    assert [d][1..] == [];
  }

  /** The feed shows exactly the depth at one price of one side. */
  predicate ShowsAt(f: Feed, s: State, side: Side, price: int)
  {
    var depth := DepthAt(s.Orders(side), price);
    (price in f.At(side) <==> depth != 0) && (price in f.At(side) ==> f.At(side)[price] == depth)
  }

  ghost predicate Shows(f: Feed, s: State) { forall side, price :: ShowsAt(f, s, side, price) }

  /** Depth changed only at one price of one side. */
  ghost predicate OnlyAt(s: State, t: State, side: Side, price: int)
  {
    forall x, p :: (x != side || p != price) ==> DepthAt(t.Orders(x), p) == DepthAt(s.Orders(x), p)
  }

  lemma DeltaShows(f: Feed, s: State, t: State, side: Side, price: int)
    requires Shows(f, s) && OnlyAt(s, t, side, price)
    ensures Shows(Apply(f, DeltaDraft(t, side, price)), t)
  {
    var g := Apply(f, DeltaDraft(t, side, price));
    forall x, p ensures ShowsAt(g, t, x, p) {
      assert ShowsAt(f, s, x, p);
      if x != side || p != price {
        assert DepthAt(t.Orders(x), p) == DepthAt(s.Orders(x), p);
      }
    }
  }

  lemma ConsumedDepth(s: seq<Order>, qty: int, price: int)
    requires s != [] && 0 < qty <= s[0].remaining
    ensures DepthAt(MakersAfter(s, qty), price) == DepthAt(s, price) - (if s[0].price == price then qty else 0)
  {
    if qty < s[0].remaining {
      assert MakersAfter(s, qty)[1..] == s[1..];
    }
  }

  // ----- Matching: the level being consumed is stale until the loop leaves it -----

  ghost predicate ShowsInFlight(o: Place, f: Feed, m: Matching)
  {
    forall side, price ::
      ShowsAt(f, m.s, side, price)
      || (side == o.side.Opposite() && CanFill(o, m) && price == Makers(o, m)[0].price)
  }

  lemma FilledDepth(o: Place, m: Matching)
    requires Ready(o, m) && CanFill(o, m)
    ensures var t := FilledState(o, m.s, FillQty(o, m));
      && OnlyAt(m.s, t, o.side.Opposite(), Makers(o, m)[0].price)
      && t.Orders(o.side.Opposite()) == MakersAfter(Makers(o, m), FillQty(o, m))
  {
    var t := FilledState(o, m.s, FillQty(o, m));
    assert t.Orders(o.side) == m.s.Orders(o.side);
    assert t.Orders(o.side.Opposite()) == MakersAfter(Makers(o, m), FillQty(o, m));
    hide FilledState, Ready, MakersAfter;
    forall x, p | x != o.side.Opposite() || p != Makers(o, m)[0].price
      ensures DepthAt(t.Orders(x), p) == DepthAt(m.s.Orders(x), p)
    {
      if x == o.side.Opposite() { ConsumedDepth(Makers(o, m), FillQty(o, m), p); }
    }
  }

  lemma StepFeed(o: Place, ts: nat, f: Feed, m: Matching, t: State, left: int)
    requires CanFill(o, m) && ShowsInFlight(o, f, m)
    requires OnlyAt(m.s, t, o.side.Opposite(), Makers(o, m)[0].price)
    requires left == m.remaining - FillQty(o, m)
    ensures var g := ApplyAll(f, StepDrafts(o, ts, Makers(o, m)[0], FillQty(o, m), left, t));
      forall side, price :: ShowsAt(g, t, side, price)
        || (side == o.side.Opposite() && 0 < left && t.Orders(side) != [] && t.Orders(side)[0].price == price
            && price == Makers(o, m)[0].price)
  {
    var opp, p0 := o.side.Opposite(), Makers(o, m)[0].price;
    var drafts := StepDrafts(o, ts, Makers(o, m)[0], FillQty(o, m), left, t);
    var trade := drafts[0];
    NoDeltasKeep(f, [trade]);
    ApplyConcat(f, [trade], drafts[1..]);
    assert drafts == [trade] + drafts[1..];
    var done := LevelDone(left, t.Orders(opp), p0);
    if done {
      assert drafts[1..] == [DeltaDraft(t, opp, p0)];
      ApplyOne(f, DeltaDraft(t, opp, p0));
    } else {
      assert drafts[1..] == [];
    }
    var g := ApplyAll(f, drafts);
    assert g == if done then Apply(f, DeltaDraft(t, opp, p0)) else f;
    forall side, price | !(side == opp && price == p0) ensures ShowsAt(g, t, side, price) {
      assert ShowsAt(f, m.s, side, price);
    }
  }

  lemma FillStepFeed(o: Place, ts: nat, m: Matching, f: Feed)
    requires Ready(o, m) && CanFill(o, m) && ShowsInFlight(o, ApplyAll(f, m.outs), m)
    ensures ShowsInFlight(o, ApplyAll(f, FillStep(o, ts, m).outs), FillStep(o, ts, m))
  {
    var maker, qty := Makers(o, m)[0], FillQty(o, m);
    var t, left := FilledState(o, m.s, qty), m.remaining - qty;
    var drafts := StepDrafts(o, ts, maker, qty, left, t);
    FilledDepth(o, m);
    FillStepShape(o, ts, m);
    ApplyConcat(f, m.outs, drafts);
    hide FillStep, FilledState, StepDrafts, ApplyAll, Ready, OnlyAt, MakersAfter, ShowsAt;
    StepFeed(o, ts, ApplyAll(f, m.outs), m, t, left);
    InFlightAfter(o, ApplyAll(f, m.outs + drafts), m, FillStep(o, ts, m));
  }

  /** If the best price is still the one just traded at, the loop goes on there. */
  lemma InFlightAfter(o: Place, g: Feed, m: Matching, n: Matching)
    requires CanFill(o, m)
    requires forall side, price ::
      (ShowsAt(g, n.s, side, price)
       || (side == o.side.Opposite() && 0 < n.remaining && n.s.Orders(side) != []
           && n.s.Orders(side)[0].price == price && price == Makers(o, m)[0].price))
    ensures ShowsInFlight(o, g, n)
  {
    hide ShowsAt;
  }

  lemma NotInFlight(o: Place, f: Feed, m: Matching)
    requires !CanFill(o, m) && ShowsInFlight(o, f, m)
    ensures Shows(f, m.s)
  {
  }

  lemma {:induction false} MatchFeed(o: Place, ts: nat, m: Matching, f: Feed)
    requires Ready(o, m) && ShowsInFlight(o, ApplyAll(f, m.outs), m)
    ensures Shows(ApplyAll(f, MatchAll(o, ts, m).outs), MatchAll(o, ts, m).s)
    decreases |Makers(o, m)|, Max(0, m.remaining)
  {
    hide *;
    MatchUnfold(o, ts, m);
    if CanFill(o, m) {
      FillStepFeed(o, ts, m, f);
      MatchFeed(o, ts, FillStep(o, ts, m), f);
    } else {
      NotInFlight(o, ApplyAll(f, m.outs), m);
    }
  }

  lemma RemainderFeed(o: Place, ts: nat, m: Matching, f: Feed)
    requires 0 < o.quantity && Shows(ApplyAll(f, m.outs), m.s)
    ensures Shows(ApplyAll(f, HandleRemainder(o, ts, m).outs), HandleRemainder(o, ts, m).s)
  {
    var n := HandleRemainder(o, ts, m);
    if 0 < m.remaining && o.orderType.LIMIT? {
      var r := RestingOrder(o, ts, m);
      assert n.s.Orders(o.side) == Insert(m.s.Orders(o.side), r);
      assert n.s.Orders(o.side.Opposite()) == m.s.Orders(o.side.Opposite());
      forall x, p | x != o.side || p != o.price
        ensures DepthAt(n.s.Orders(x), p) == DepthAt(m.s.Orders(x), p)
      {
        if x == o.side { DepthInsert(m.s.Orders(o.side), r, p); }
      }
      var d := DeltaDraft(n.s, o.side, o.price);
      ApplyConcat(f, m.outs, [d]);
      ApplyOne(ApplyAll(f, m.outs), d);
      DeltaShows(ApplyAll(f, m.outs), m.s, n.s, o.side, o.price);
    } else {
      SameBookShows(ApplyAll(f, m.outs), m.s, n.s);
    }
  }

  lemma SameBookShows(f: Feed, s: State, t: State)
    requires Shows(f, s) && t.bids == s.bids && t.asks == s.asks
    ensures Shows(f, t)
  {
    forall x, p ensures ShowsAt(f, t, x, p) { assert ShowsAt(f, s, x, p); }
  }

  lemma {:induction false} ReportsNoDeltas(s: State, users: seq<string>)
    ensures NoDeltas(ReportAll(s, users))
    decreases |users|
  {
    if users != [] {
      ReportsNoDeltas(EnsurePosition(s, users[0]), users[1..]);
    }
  }

  lemma {:induction false} MakersAcceptedNoDeltas(keys: seq<string>, t: JsMap<Touched>)
    requires forall k :: k in keys ==> k in t.at
    ensures NoDeltas(MakersAccepted(keys, t))
  {
    if keys != [] {
      MakersAcceptedNoDeltas(keys[1..], t);
    }
  }

  lemma OrderDraftsFeed(f: Feed, o: Place, n: Matching)
    requires n.makerTouched.Ok()
    ensures ApplyAll(f, OrderDrafts(o, n)) == ApplyAll(f, n.outs)
  {
    var a, b, c := n.outs, MakersAccepted(n.makerTouched.keys, n.makerTouched), ReportAll(n.s, n.affected);
    var d := [TakerAccepted(o, n.remaining, n.filledNotional)];
    MakersAcceptedNoDeltas(n.makerTouched.keys, n.makerTouched);
    ReportsNoDeltas(n.s, n.affected);
    ApplyConcat(f, a + b + c, d);
    ApplyConcat(f, a + b, c);
    ApplyConcat(f, a, b);
    var g := ApplyAll(f, a);
    NoDeltasKeep(g, b);
    NoDeltasKeep(g, c);
    NoDeltasKeep(g, d);
  }

  lemma ExecutedFeed(f: Feed, s: State, o: Place, ts: nat)
    requires Wf(s) && Shows(f, s) && Refusal(s, o).None? && 0 < o.quantity && 0 < o.margin && 0 <= o.price
    ensures Shows(ApplyAll(f, Executed(s, o, ts).outs), Executed(s, o, ts).s)
  {
    var m := StartMatching(s, o);
    StartMatchingReady(s, o);
    SameBookShows(f, s, m.s);
    assert ApplyAll(f, m.outs) == f;
    MatchFeed(o, ts, m, f);
    hide MatchAll, HandleRemainder, Shows, StartMatching, Wf, Refusal;
    RemainderFeed(o, ts, MatchAll(o, ts, m), f);
  }

  lemma PlaceFeed(f: Feed, s: State, o: Place, ts: nat, c: Option<string>)
    requires Wf(s) && Shows(f, s) && 0 < o.quantity && 0 < o.margin && 0 <= o.price
    ensures Shows(ApplyAll(f, OnPlaceOrder(s, o, ts, c).1), OnPlaceOrder(s, o, ts, c).0)
  {
    if Refusal(s, o).None? {
      var n := Executed(s, o, ts);
      ExecutedFeed(f, s, o, ts);
      OrderDraftsFeed(f, o, n);
      EnsureAllOnlyPositions(n.s, n.affected);
      hide Executed, Shows, Wf, Refusal, OrderDrafts, EnsureAll;
      SameBookShows(ApplyAll(f, n.outs), n.s, EnsureAll(n.s, n.affected));
    } else {
      hide Refusal;
      NoDeltasKeep(f, OnPlaceOrder(s, o, ts, c).1);
    }
  }

  lemma CancelFeed(f: Feed, s: State, u: string, orderId: string, side: Side, price: int, c: Option<string>)
    requires Shows(f, s)
    ensures var r := OnCancelOrder(s, u, orderId, side, price, c); Shows(ApplyAll(f, r.1), r.0)
  {
    var (t, drafts) := OnCancelOrder(s, u, orderId, side, price, c);
    var orders := s.Orders(side);
    var i := Find(orders, price, orderId);
    if i == |orders| || orders[i].userId != u {
      NoDeltasKeep(f, drafts);
    } else {
      assert t.Orders(side) == Remove(orders, i) && t.Orders(side.Opposite()) == s.Orders(side.Opposite());
      forall x, p | x != side || p != price ensures DepthAt(t.Orders(x), p) == DepthAt(s.Orders(x), p) {
        if x == side { DepthRemove(orders, i, p); }
      }
      var d := DeltaDraft(t, side, price);
      assert drafts == [d] + drafts[1..];
      ApplyConcat(f, [d], drafts[1..]);
      ApplyOne(f, d);
      NoDeltasKeep(Apply(f, d), drafts[1..]);
      DeltaShows(f, s, t, side, price);
    }
  }

  lemma {:induction false} LiquidationsNoDeltas(s: State, t: State, users: seq<string>, mark: int)
    ensures NoDeltas(LiquidationDrafts(s, t, users, mark))
  {
    if users != [] {
      LiquidationsNoDeltas(s, t, users[1..], mark);
    }
  }

  lemma TickFeed(f: Feed, s: State, price: int, observerSeq: int)
    requires Shows(f, s)
    ensures var r := OnIndexPrice(s, price, observerSeq); Shows(ApplyAll(f, r.1), r.0)
  {
    if s.lastObserverSeq < observerSeq {
      var s1 := MarkToMarket(s.(lastObserverSeq := observerSeq), price);
      var drafts := OnIndexPrice(s, price, observerSeq).1;
      LiquidationsNoDeltas(s1, Sweep(s1, price), DoomedAmong(s1, s1.positions.keys, price), price);
      NoDeltasKeep(f, drafts);
      SameBookShows(f, s, OnIndexPrice(s, price, observerSeq).0);
    }
  }

  lemma CreatedFeed(f: Feed, s: State, u: string, amount: int)
    requires Shows(f, s)
    ensures var r := OnUserCreated(s, u, amount); Shows(ApplyAll(f, r.1), r.0)
  {
    hide Shows;
    NoDeltasKeep(f, OnUserCreated(s, u, amount).1);
    SameBookShows(f, s, OnUserCreated(s, u, amount).0);
  }

  lemma DepositedFeed(f: Feed, s: State, u: string, amount: int)
    requires Shows(f, s)
    ensures var r := OnBalanceDeposited(s, u, amount); Shows(ApplyAll(f, r.1), r.0)
  {
    hide Shows;
    NoDeltasKeep(f, OnBalanceDeposited(s, u, amount).1);
    SameBookShows(f, s, OnBalanceDeposited(s, u, amount).0);
  }

  lemma DispatchFeed(f: Feed, s: State, e: Event)
    requires Wf(s) && e.Admitted() && Shows(f, s)
    ensures Shows(ApplyAll(f, Dispatch(s, e).1), Dispatch(s, e).0)
  {
    hide *;
    WfPositive(s);
    match e.payload
    case PlaceOrder(o) => PlaceIs(s, e); PlaceFeed(f, s, o, e.ts, e.commandId);
    case CancelOrder(u, orderId, side, price) =>
      CancelIs(s, e); CancelFeed(f, s, u, orderId, side, price, e.commandId);
    case IndexPriceUpdated(price, observerSeq) => TickIs(s, e); TickFeed(f, s, price, observerSeq);
    case UserCreated(u, amount) => CreateIs(s, e); CreatedFeed(f, s, u, amount);
    case BalanceDeposited(u, amount) => DepositIs(s, e); DepositedFeed(f, s, u, amount);
  }

  /** One event's depth updates take the depth before it to the depth after it. */
  lemma StepShows(f: Feed, s: State, e: Event, id: StreamId)
    requires Wf(s) && e.Admitted() && Shows(f, s)
    ensures Shows(ApplyAll(f, Drafts(s, e)), Step(s, e, id))
  {
    if AlreadyApplied(s, e) {
      SameBookShows(f, s, Step(s, e, id));
    } else {
      DispatchFeed(f, s, e);
      hide Dispatch, Wf, ApplyAll, Shows;
      SameBookShows(ApplyAll(f, Dispatch(s, e).1), Dispatch(s, e).0, Step(s, e, id));
    }
  }

  /** Over every run from genesis, starting from an empty feed. */
  lemma {:induction false} DeltasDetermineDepth(market: MarketConfig, es: seq<Input>)
    requires AllAdmitted(es)
    ensures Wf(CreateState(market))
    ensures Shows(ApplyAll(Feed(map[], map[]), Projection.RunDrafts(CreateState(market), es)),
                  Run(CreateState(market), es))
  {
    GenesisWf(market);
    if es != [] {
      var n := |es| - 1;
      var s, f := CreateState(market), Feed(map[], map[]);
      DeltasDetermineDepth(market, es[..n]);
      ApplyConcat(f, Projection.RunDrafts(s, es[..n]), Drafts(Run(s, es[..n]), es[n].event));
      StepShows(ApplyAll(f, Projection.RunDrafts(s, es[..n])), Run(s, es[..n]), es[n].event, es[n].id);
    }
  }
}
