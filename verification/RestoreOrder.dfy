/** A run after which a snapshot and restore changes what the next tick emits: two users
    trade, both are underwater at the next mark, and their positions are stored in the order
    in which they were opened, which is not the order of their ids. */
module RestoreOrder {
  import opened Money
  import opened States
  import opened JsMaps
  import opened Accounts
  import opened EngineSpec
  import opened Invariants
  import opened Snapshots
  import Accounting
  import Book
  import Risk

  const MARKET := MarketConfig("BTC", 100 * UNIT, 0, UNIT / 2)
  const SELL := Place("b", "1", Ask, LIMIT, UNIT, 1000, 10 * UNIT, 100)
  const BUY := Place("a", "2", Bid, LIMIT, UNIT, 1000, 10 * UNIT, 100)

  function InputOf(k: nat, p: Payload): Input { Input(StreamId(1, k), Event("e", 0, None, None, p)) }

  function Inputs(): seq<Input>
  {
    [InputOf(0, UserCreated("b", 1000)), InputOf(1, UserCreated("a", 1000)),
     InputOf(2, PlaceOrder(SELL)), InputOf(3, PlaceOrder(BUY))]
  }

  const RICH := Balance(1000, 1000, 0)

  /** Two funded users, nothing on the book. */
  function Funded(): State
  {
    CreateState(MARKET).(balances := JsMap(["b", "a"], map["b" := RICH, "a" := RICH]),
                         seqNo := 2, appliedCount := 2, lastInputId := StreamId(1, 1))
  }

  /** A new user's event, without a command id. */
  lemma CreateStep(s: State, e: Event, id: StreamId)
    requires Positive(s.bids) && Positive(s.asks) && e.commandId.None?
    requires e.payload.UserCreated? && e.payload.openingBalance == 1000 && e.payload.userId !in s.balances.at
    ensures e.Admitted()
    ensures Step(s, e, id) == s.(balances := s.balances.Set(e.payload.userId, RICH), seqNo := s.seqNo + 1,
                                 appliedCount := s.appliedCount + 1, lastInputId := id)
  {
    hide OnUserCreated, Positive, Dispatch, Step;
    Created(s, e.payload.userId);
    CreateIs(s, e);
    PlainStep(s, e, id);
  }

  lemma PlainStep(s: State, e: Event, id: StreamId)
    requires Positive(s.bids) && Positive(s.asks) && e.Admitted() && e.commandId.None?
    ensures var (t, drafts) := Dispatch(s, e);
      Step(s, e, id) == t.(appliedCount := t.appliedCount + 1, lastInputId := id, seqNo := t.seqNo + |drafts|)
  {
    hide Dispatch, Positive;
  }

  lemma Created(s: State, u: string)
    requires u !in s.balances.at
    ensures var r := OnUserCreated(s, u, 1000);
      r.0 == s.(balances := s.balances.Set(u, RICH)) && |r.1| == 1
  {
    var s1 := EnsureBalance(s, u);
    assert s1.balances.Set(u, RICH).at == s.balances.Set(u, RICH).at;
  }

  lemma TwoUsers()
    ensures Positive([]) && Inputs()[0].event.Admitted() && Inputs()[1].event.Admitted()
    ensures var s := Step(CreateState(MARKET), Inputs()[0].event, Inputs()[0].id);
      s.bids == [] && s.asks == [] && Step(s, Inputs()[1].event, Inputs()[1].id) == Funded()
  {
    hide Step;
    CreateStep(CreateState(MARKET), Inputs()[0].event, Inputs()[0].id);
    var s := Step(CreateState(MARKET), Inputs()[0].event, Inputs()[0].id);
    CreateStep(s, Inputs()[1].event, Inputs()[1].id);
    assert map["b" := RICH]["a" := RICH] == map["b" := RICH, "a" := RICH];
  }

  const ASK := Order("1", "b", Ask, 1000, UNIT, UNIT, 10 * UNIT, 100, 3, 0)

  /** The seller's order rests; their position record is flat. */
  ghost predicate Offered(s: State)
  {
    && s.market == MARKET && s.markPrice == 0 && s.bids == [] && s.asks == [ASK]
    && "a" in s.balances.at && 100 <= s.BalanceOf("a").free
    && s.positions == JsMap(["b"], map["b" := FlatPosition(0)])
    && s.lastObserverSeq == -1
  }

  lemma EnoughMargin(o: Place)
    requires o.quantity == UNIT && o.leverage == 10 * UNIT && o.margin == 100
    ensures !Risk.Short(o.margin + TOLERANCE, Risk.RequiredMargin(1000, o.quantity, o.leverage))
  {
    RoundDivExact(1000, UNIT);
    RoundDivExact(100, 10 * UNIT);
  }

  lemma SellAccepted(s: State)
    requires s == Funded()
    ensures Accounting.RestsOnly(s, SELL)
  {
    EnoughMargin(SELL);
    hide Risk.RequiredMargin, Risk.Short;
    assert RefPrice(s, SELL) == 1000;
  }

  lemma SellState(s: State)
    requires s == Funded()
    ensures Offered(EnsurePosition(Accounting.WithRested(s, SELL, 0), "b"))
  {
    var t := EnsurePosition(Accounting.WithRested(s, SELL, 0), "b");
    assert t.asks == [ASK];
    assert t.positions.at == map["b" := FlatPosition(0)];
  }

  lemma SellRests(s: State)
    requires s == Funded() && Wf(s)
    ensures Positive(s.asks) && Positive(s.bids) && Offered(OnPlaceOrder(s, SELL, 0, None).0)
  {
    WfPositive(s);
    SellAccepted(s);
    SellState(s);
    hide *;
    Accounting.RestedState(s, SELL, 0, None);
  }

  // ----- The trade -----

  lemma BuyAccepted(s: State)
    requires Offered(s)
    ensures Refusal(s, BUY).None?
  {
    EnoughMargin(BUY);
    hide Risk.RequiredMargin, Risk.Short;
    assert RefPrice(s, BUY) == 1000;
  }

  /** Long and short, both opened at 1000 with leverage 10. */
  ghost predicate Opened(s: State)
  {
    && s.positions.keys == ["b", "a"] && s.positions.Ok()
    && s.positions.at["b"].size == -UNIT && s.positions.at["b"].liqPrice == 600
    && s.positions.at["a"].size == UNIT && s.positions.at["a"].liqPrice == 1400
    && s.lastObserverSeq == -1
  }

  lemma LiquidationPrices()
    ensures Risk.LiquidationPrice(1000, 10 * UNIT, true, UNIT / 2) == 1400
    ensures Risk.LiquidationPrice(1000, 10 * UNIT, false, UNIT / 2) == 600
  {
    RoundDivExact(1400, UNIT * (10 * UNIT));
    RoundDivExact(600, UNIT * (10 * UNIT));
  }

  lemma LegOpened(s: State, u: string, f: Fill)
    requires s.market == MARKET && 0 < f.qty && s.PositionOf(u).size == 0
    ensures var t := FillUser(s, u, f);
      && t.positions.keys == (if u in s.positions.at then s.positions.keys else s.positions.keys + [u])
      && t.positions.at == s.positions.at[u := Open(s.PositionOf(u), f, UNIT / 2)]
      && t.market == MARKET && t.lastObserverSeq == s.lastObserverSeq && t.markPrice == s.markPrice
      && t.bids == s.bids && t.asks == s.asks
  {
    hide Open;
  }

  lemma TradeOpens(s: State)
    requires s.market == MARKET && s.markPrice == 0 && s.asks == [ASK] && s.lastObserverSeq == -1
    requires s.positions == JsMap(["b"], map["b" := FlatPosition(0)])
    ensures Opened(FilledState(BUY, s, UNIT)) && FilledState(BUY, s, UNIT).asks == []
  {
    LiquidationPrices();
    hide Risk.LiquidationPrice, FillUser, MakerFillMargin, TakerShare;
    var s1 := s.WithOrders(Ask, MakersAfter(s.asks, UNIT));
    LegOpened(s1, "b", MakerFill(ASK, UNIT));
    var s2 := FillUser(s1, "b", MakerFill(ASK, UNIT));
    LegOpened(s2, "a", TakerFill(BUY, 1000, UNIT));
    var s3 := FillUser(s2, "a", TakerFill(BUY, 1000, UNIT));
    assert s3.positions.keys == ["b", "a"];
  }

  /** The taker's order is filled in one turn of the loop. */
  lemma BuyExecutes(s: State)
    requires Offered(s)
    ensures Positive(s.asks)
    ensures var m := Executed(s, BUY, 0); Opened(m.s) && m.affected == ["a", "b"]
  {
    var m := StartMatching(s, BUY);
    TradeOpens(m.s);
    hide FilledState, StepDrafts, Touch, MakerLeg, TakerLeg, Opened, RoundDiv;
    var n := FillStep(BUY, 0, m);
    assert n.s == FilledState(BUY, m.s, UNIT) && n.remaining == 0 && n.affected == ["a", "b"];
    assert MatchAll(BUY, 0, n) == n;
    assert MatchAll(BUY, 0, m) == n;
  }

  lemma BuyOpens(s: State)
    requires Offered(s)
    ensures Positive(s.asks) && Positive(s.bids) && Opened(OnPlaceOrder(s, BUY, 0, None).0)
  {
    BuyAccepted(s);
    BuyExecutes(s);
    hide Executed, Refusal, OrderDrafts;
    var m := Executed(s, BUY, 0);
    assert m.affected[1..] == ["b"] && m.affected[1..][1..] == [];
    assert EnsureAll(m.s, m.affected) == m.s;
  }

  lemma OrderStep(s: State, o: Place, k: nat)
    requires Positive(s.asks) && Positive(s.bids) && InputOf(k, PlaceOrder(o)).event.Admitted()
    ensures 0 < o.quantity && Positive(s.Orders(o.side.Opposite()))
    ensures var t, r := Step(s, InputOf(k, PlaceOrder(o)).event, StreamId(1, k)), OnPlaceOrder(s, o, 0, None).0;
      t == r.(seqNo := t.seqNo, appliedCount := r.appliedCount + 1, lastInputId := StreamId(1, k))
  {
    hide OnPlaceOrder;
  }

  lemma OpenedFrame(s: State, t: State)
    requires Opened(s) && t.positions == s.positions && t.lastObserverSeq == s.lastObserverSeq
    ensures Opened(t)
  {
  }

  lemma OfferedFrame(s: State, t: State)
    requires Offered(s) && t == s.(seqNo := t.seqNo, appliedCount := t.appliedCount, lastInputId := t.lastInputId)
    ensures Offered(t)
  {
  }

  lemma PrefixStep(s: State, es: seq<Input>, k: nat)
    requires Wf(s) && AllAdmitted(es) && k < |es|
    ensures AllAdmitted(es[..k]) && AllAdmitted(es[..k + 1])
    ensures var t := Run(s, es[..k]);
      && Positive(t.bids) && Positive(t.asks) && Wf(t)
      && Run(s, es[..k + 1]) == Step(t, es[k].event, es[k].id)
  {
    assert es[..k + 1] == es[..k] + [es[k]];
    WfPositive(Run(s, es[..k]));
    hide Step, Wf, Positive, Run;
    RunLast(s, es[..k], es[k]);
  }

  /** After the four inputs both positions are open, the one of "b" stored first. */
  lemma RunOpens()
    ensures AllAdmitted(Inputs()) && Wf(CreateState(MARKET)) && Opened(Run(CreateState(MARKET), Inputs()))
  {
    var s0 := CreateState(MARKET);
    FundedRun();
    InputsOk();
    hide Wf, Step, OnPlaceOrder, Offered, Opened, Positive, Run, Funded, AllAdmitted, Inputs, CreateState;
    PrefixStep(s0, Inputs(), 2);
    var s2, s3 := Run(s0, Inputs()[..2]), Run(s0, Inputs()[..3]);
    SellRests(s2);
    OrderStep(s2, SELL, 2);
    OfferedFrame(OnPlaceOrder(s2, SELL, 0, None).0, s3);
    PrefixStep(s0, Inputs(), 3);
    BuyOpens(s3);
    OrderStep(s3, BUY, 3);
    OpenedFrame(OnPlaceOrder(s3, BUY, 0, None).0, Run(s0, Inputs()[..4]));
  }

  lemma InputsOk()
    ensures AllAdmitted(Inputs()) && Inputs()[..4] == Inputs() && |Inputs()| == 4 && Inputs()[..0] == []
    ensures Inputs()[2] == InputOf(2, PlaceOrder(SELL)) && Inputs()[3] == InputOf(3, PlaceOrder(BUY))
    ensures Inputs()[2].event.Admitted() && Inputs()[3].event.Admitted()
  {
  }

  lemma FundedRun()
    ensures |Inputs()| == 4 && AllAdmitted(Inputs()) && AllAdmitted(Inputs()[..2])
    ensures Wf(CreateState(MARKET)) && Run(CreateState(MARKET), Inputs()[..2]) == Funded()
  {
    var s0 := CreateState(MARKET);
    GenesisWf(MARKET);
    TwoUsers();
    InputsOk();
    assert Run(s0, []) == s0;
    hide Wf, Step, Positive, Run, Funded, Inputs, InputOf, AllAdmitted, CreateState;
    PrefixStep(s0, Inputs(), 0);
    PrefixStep(s0, Inputs(), 1);
  }

  // ----- The tick -----

  const TICK := InputOf(4, IndexPriceUpdated(1000, 0))

  lemma BothDoomed(s: State)
    requires Opened(s)
    ensures DoomedInOrder(s, 1000) == ["b", "a"]
  {
    var keys := s.positions.keys;
    assert keys[1..] == ["a"] && keys[1..][1..] == [];
    assert Doomed(s, "b", 1000) && Doomed(s, "a", 1000);
    assert DoomedAmong(s, ["a"], 1000) == ["a"];
  }

  lemma Sorted(s: State, t: State)
    requires Opened(s) && s.positions.at == t.positions.at && t.positions.keys == SortKeys(s.positions.keys)
    ensures DoomedInOrder(t, 1000) == ["a", "b"]
  {
    assert SortKeys(["b", "a"]) == ["a", "b"] by {
      assert ["b", "a"][1..] == ["a"] && ["a"][1..] == [];
      assert Less("a", "b");
    }
    var keys := t.positions.keys;
    assert keys[1..] == ["b"] && keys[1..][1..] == [];
    assert Doomed(t, "b", 1000) && Doomed(t, "a", 1000);
    assert DoomedAmong(t, ["b"], 1000) == ["b"];
  }

  lemma OpenedSeq(s: State)
    requires Opened(s)
    ensures s.lastObserverSeq == -1
  {
  }

  lemma RestoredKeys(s: State)
    requires Wf(s)
    ensures var r := Deserialize(Serialize(s));
      r.Some? && r.value.positions.keys == SortKeys(s.positions.keys)
  {
    FromSorted(s.positions);
    hide SortedEntries, FromEntries, SortKeys;
  }

  /** A reachable state and its restored copy emit different events for the same tick, if
      only in their order. */
  lemma RestoreReordersLiquidations()
    ensures AllAdmitted(Inputs()) && TICK.event.Admitted() && Wf(CreateState(MARKET))
    ensures var s := Run(CreateState(MARKET), Inputs());
      var r := Deserialize(Serialize(s));
      && r.Some? && Wf(r.value) && Alike(s, r.value)
      && Positive(s.bids) && Positive(s.asks) && Positive(r.value.bids) && Positive(r.value.asks)
      && Drafts(s, TICK.event) != Drafts(r.value, TICK.event)
      && multiset(Drafts(s, TICK.event)) == multiset(Drafts(r.value, TICK.event))
  {
    RunOpens();
    var s := Run(CreateState(MARKET), Inputs());
    hide Wf, Opened, Run, Serialize, Deserialize, DoomedInOrder, SortKeys, Positive, Drafts;
    RestoreAlike(s);
    var t := Deserialize(Serialize(s)).value;
    RestoredKeys(s);
    BothDoomed(s);
    Sorted(s, t);
    OpenedSeq(s);
    Reordered(s, t);
  }

  lemma Reordered(s: State, t: State)
    requires Wf(s) && Wf(t) && Alike(s, t) && s.lastObserverSeq == -1
    requires DoomedInOrder(s, 1000) != DoomedInOrder(t, 1000)
    ensures TICK.event.Admitted() && Positive(s.bids) && Positive(s.asks) && Positive(t.bids) && Positive(t.asks)
    ensures Drafts(s, TICK.event) != Drafts(t, TICK.event)
    ensures multiset(Drafts(s, TICK.event)) == multiset(Drafts(t, TICK.event))
  {
    WfPositive(s);
    WfPositive(t);
    hide Wf, Alike, Dispatch, DoomedInOrder, Positive;
    DispatchAlike(s, t, TICK.event);
  }
}
