/** One counter is the source of every generated id: trade ids, event ids and the sequence
    numbers of resting orders. No trade or event id is ever issued twice. */
module Identifiers {
  import opened Money
  import opened States
  import opened JsMaps
  import opened EngineSpec
  import opened Invariants

  /** Strictly ascending within (lo, hi]. */
  ghost predicate Rising(ids: seq<nat>, lo: nat, hi: nat)
  {
    && lo <= hi
    && (forall i :: 0 <= i < |ids| ==> lo < ids[i] <= hi)
    && (forall i, j :: 0 <= i < j < |ids| ==> ids[i] < ids[j])
  }

  lemma RisingConcat(a: seq<nat>, b: seq<nat>, lo: nat, mid: nat, hi: nat)
    requires Rising(a, lo, mid) && Rising(b, mid, hi)
    ensures Rising(a + b, lo, hi)
  {
  }

  /** The trade ids in a list of drafts. */
  function TradeSeqs(drafts: seq<Draft>): seq<nat>
  {
    if drafts == [] then []
    else (if drafts[0].TradeExecuted? then [drafts[0].tradeSeq] else []) + TradeSeqs(drafts[1..])
  }

  function EventSeqs(outputs: seq<Output>): seq<nat>
  {
    seq(|outputs|, i requires 0 <= i < |outputs| => outputs[i].eventSeq)
  }

  /** The ids an event has generated, in the order of their generation. */
  function Issued(s: State, e: Event): seq<nat>
    requires e.Admitted() && Positive(s.bids) && Positive(s.asks)
  {
    TradeSeqs(Drafts(s, e)) + EventSeqs(Outputs(s, e))
  }

  lemma {:induction false} TradeSeqsConcat(a: seq<Draft>, b: seq<Draft>)
    ensures TradeSeqs(a + b) == TradeSeqs(a) + TradeSeqs(b)
  {
    if a == [] {
      assert a + b == b;
    } else {
      assert (a + b)[0] == a[0] && (a + b)[1..] == a[1..] + b;
      TradeSeqsConcat(a[1..], b);
      var first := if a[0].TradeExecuted? then [a[0].tradeSeq] else [];
      assert first + (TradeSeqs(a[1..]) + TradeSeqs(b)) == first + TradeSeqs(a[1..]) + TradeSeqs(b);
    }
  }

  predicate NoTrades(drafts: seq<Draft>) { forall i :: 0 <= i < |drafts| ==> !drafts[i].TradeExecuted? }

  lemma {:induction false} NoTradesNoSeqs(drafts: seq<Draft>)
    requires NoTrades(drafts)
    ensures TradeSeqs(drafts) == []
  {
    if drafts != [] { NoTradesNoSeqs(drafts[1..]); }
  }

  lemma FilledSeq(o: Place, s: State, qty: int)
    requires 0 < o.quantity && 0 < qty && s.Orders(o.side.Opposite()) != []
    ensures FilledState(o, s, qty).seqNo == s.seqNo + 1
  {
    hide MakersAfter, MakerFillMargin, TakerShare;
  }

  lemma StepDraftsSeqs(o: Place, ts: nat, maker: Order, qty: int, left: int, s: State)
    ensures TradeSeqs(StepDrafts(o, ts, maker, qty, left, s)) == [s.seqNo]
  {
    var d := StepDrafts(o, ts, maker, qty, left, s);
    NoTradesNoSeqs(d[1..]);
  }

  lemma FillIssues(o: Place, ts: nat, m: Matching, lo: nat)
    requires Ready(o, m) && CanFill(o, m) && Rising(TradeSeqs(m.outs), lo, m.s.seqNo)
    ensures var n := FillStep(o, ts, m); Rising(TradeSeqs(n.outs), lo, n.s.seqNo)
  {
    ReadyPositive(o, m);
    FillStepShape(o, ts, m);
    FilledSeq(o, m.s, FillQty(o, m));
    hide Ready, FillStep, FilledState, TradeSeqs, StepDrafts, MakerLeg, TakerLeg;
    var n := FillStep(o, ts, m);
    var d := StepDrafts(o, ts, Makers(o, m)[0], FillQty(o, m), m.remaining - FillQty(o, m), n.s);
    StepDraftsSeqs(o, ts, Makers(o, m)[0], FillQty(o, m), m.remaining - FillQty(o, m), n.s);
    TradeSeqsConcat(m.outs, d);
    RisingConcat(TradeSeqs(m.outs), [n.s.seqNo], lo, m.s.seqNo, n.s.seqNo);
  }

  lemma {:induction false} MatchIssues(o: Place, ts: nat, m: Matching, lo: nat)
    requires Ready(o, m) && Rising(TradeSeqs(m.outs), lo, m.s.seqNo)
    ensures var n := MatchAll(o, ts, m); Rising(TradeSeqs(n.outs), lo, n.s.seqNo)
    decreases |Makers(o, m)|, Max(0, m.remaining)
  {
    hide *;
    MatchUnfold(o, ts, m);
    if CanFill(o, m) {
      FillIssues(o, ts, m, lo);
      MatchIssues(o, ts, FillStep(o, ts, m), lo);
    }
  }

  lemma {:induction false} ReportsNoTrades(s: State, users: seq<string>)
    ensures NoTrades(ReportAll(s, users)) && EnsureAll(s, users).seqNo == s.seqNo
    decreases |users|
  {
    if users != [] { ReportsNoTrades(EnsurePosition(s, users[0]), users[1..]); }
  }

  lemma {:induction false} MakersNoTrades(keys: seq<string>, t: JsMap<Touched>)
    requires forall k :: k in keys ==> k in t.at
    ensures NoTrades(MakersAccepted(keys, t))
  {
    if keys != [] { MakersNoTrades(keys[1..], t); }
  }

  lemma {:induction false} LiquidationsNoTrades(s: State, t: State, users: seq<string>, mark: int)
    ensures NoTrades(LiquidationDrafts(s, t, users, mark))
  {
    if users != [] { LiquidationsNoTrades(s, t, users[1..], mark); }
  }

  lemma RemainderIssues(o: Place, ts: nat, m: Matching, lo: nat)
    requires 0 < o.quantity && Rising(TradeSeqs(m.outs), lo, m.s.seqNo)
    ensures var n := HandleRemainder(o, ts, m); Rising(TradeSeqs(n.outs), lo, n.s.seqNo)
  {
    var n := HandleRemainder(o, ts, m);
    if 0 < m.remaining && o.orderType.LIMIT? {
      var d := [DeltaDraft(n.s, o.side, o.price)];
      NoTradesNoSeqs(d);
      TradeSeqsConcat(m.outs, d);
      hide DeltaDraft;
    }
  }

  lemma OrderDraftsSeqs(o: Place, m: Matching)
    requires m.makerTouched.Ok()
    ensures TradeSeqs(OrderDrafts(o, m)) == TradeSeqs(m.outs)
  {
    var makers, reports, last := MakersAccepted(m.makerTouched.keys, m.makerTouched), ReportAll(m.s, m.affected),
                                 [TakerAccepted(o, m.remaining, m.filledNotional)];
    MakersNoTrades(m.makerTouched.keys, m.makerTouched);
    ReportsNoTrades(m.s, m.affected);
    NoTradesNoSeqs(makers);
    NoTradesNoSeqs(reports);
    NoTradesNoSeqs(last);
    TradeSeqsConcat(m.outs, makers);
    TradeSeqsConcat(m.outs + makers, reports);
    TradeSeqsConcat(m.outs + makers + reports, last);
  }

  lemma PlaceIssues(s: State, o: Place, ts: nat, c: Option<string>)
    requires Wf(s) && 0 < o.quantity && 0 < o.margin && 0 <= o.price
    ensures var r := OnPlaceOrder(s, o, ts, c); Rising(TradeSeqs(r.1), s.seqNo, r.0.seqNo)
  {
    if Refusal(s, o).None? {
      StartMatchingReady(s, o);
      hide Wf, Ready, Refusal, TradeSeqs, Rising, OrderDrafts, EnsureAll;
      var m0 := StartMatching(s, o);
      NothingIssued(s.seqNo);
      MatchIssues(o, ts, m0, s.seqNo);
      RemainderIssues(o, ts, MatchAll(o, ts, m0), s.seqNo);
      var m := Executed(s, o, ts);
      OrderDraftsSeqs(o, m);
      ReportsNoTrades(m.s, m.affected);
    } else {
      NoTradesNoSeqs(OnPlaceOrder(s, o, ts, c).1);
    }
  }

  lemma NothingIssued(lo: nat)
    ensures TradeSeqs([]) == [] && Rising([], lo, lo)
  {
  }

  lemma TickIssues(s: State, price: int, observerSeq: int)
    ensures var r := OnIndexPrice(s, price, observerSeq); Rising(TradeSeqs(r.1), s.seqNo, r.0.seqNo)
  {
    hide DoomedAmong, LiquidationDrafts, TradeSeqs;
    var s1 := MarkToMarket(s.(lastObserverSeq := observerSeq), price);
    LiquidationsNoTrades(s1, Sweep(s1, price), DoomedAmong(s1, s1.positions.keys, price), price);
    NoTradesNoSeqs(OnIndexPrice(s, price, observerSeq).1);
  }

  lemma CancelIssues(s: State, u: string, orderId: string, side: Side, price: int, c: Option<string>)
    ensures var r := OnCancelOrder(s, u, orderId, side, price, c); Rising(TradeSeqs(r.1), s.seqNo, r.0.seqNo)
  {
    hide TradeSeqs;
    NoTradesNoSeqs(OnCancelOrder(s, u, orderId, side, price, c).1);
  }

  lemma CreditIssues(s: State, u: string, amount: int)
    ensures var r := OnUserCreated(s, u, amount); Rising(TradeSeqs(r.1), s.seqNo, r.0.seqNo)
    ensures var r := OnBalanceDeposited(s, u, amount); Rising(TradeSeqs(r.1), s.seqNo, r.0.seqNo)
  {
    hide TradeSeqs;
    NoTradesNoSeqs(OnUserCreated(s, u, amount).1);
    NoTradesNoSeqs(OnBalanceDeposited(s, u, amount).1);
  }

  lemma DispatchIssues(s: State, e: Event)
    requires Wf(s) && e.Admitted()
    ensures Positive(s.bids) && Positive(s.asks)
    ensures var r := Dispatch(s, e); Rising(TradeSeqs(r.1), s.seqNo, r.0.seqNo)
  {
    hide *;
    WfPositive(s);
    match e.payload
    case PlaceOrder(o) => PlaceIs(s, e); PlaceIssues(s, o, e.ts, e.commandId);
    case CancelOrder(u, orderId, side, price) =>
      CancelIs(s, e); CancelIssues(s, u, orderId, side, price, e.commandId);
    case IndexPriceUpdated(price, observerSeq) => TickIs(s, e); TickIssues(s, price, observerSeq);
    case UserCreated(u, amount) => CreateIs(s, e); CreditIssues(s, u, amount);
    case BalanceDeposited(u, amount) => DepositIs(s, e); CreditIssues(s, u, amount);
  }

  lemma StampedRising(e: Event, first: nat, drafts: seq<Draft>)
    ensures Rising(EventSeqs(StampAll(e, first + 1, drafts)), first, first + |drafts|)
  {
  }

  lemma StepShape(s: State, e: Event, id: StreamId)
    requires e.Admitted() && Positive(s.bids) && Positive(s.asks) && !AlreadyApplied(s, e)
    ensures var t, drafts := Dispatch(s, e).0, Dispatch(s, e).1;
      && Step(s, e, id).seqNo == t.seqNo + |drafts|
      && Issued(s, e) == TradeSeqs(drafts) + EventSeqs(StampAll(e, t.seqNo + 1, drafts))
  {
    hide Dispatch, TradeSeqs, EventSeqs, StampAll;
  }

  lemma RepeatIssuesNothing(s: State, e: Event, id: StreamId)
    requires e.Admitted() && Positive(s.bids) && Positive(s.asks) && AlreadyApplied(s, e)
    ensures Rising(Issued(s, e), s.seqNo, Step(s, e, id).seqNo)
  {
    assert Issued(s, e) == [];
  }

  lemma StepIssues(s: State, e: Event, id: StreamId)
    requires Wf(s) && e.Admitted()
    ensures Positive(s.bids) && Positive(s.asks) && Rising(Issued(s, e), s.seqNo, Step(s, e, id).seqNo)
  {
    hide *;
    WfPositive(s);
    if AlreadyApplied(s, e) {
      RepeatIssuesNothing(s, e, id);
    } else {
      DispatchIssues(s, e);
      StepShape(s, e, id);
      var t, drafts := Dispatch(s, e).0, Dispatch(s, e).1;
      StampedRising(e, t.seqNo, drafts);
      RisingConcat(TradeSeqs(drafts), EventSeqs(StampAll(e, t.seqNo + 1, drafts)), s.seqNo, t.seqNo, t.seqNo + |drafts|);
    }
  }

  ghost function RunIssued(s: State, es: seq<Input>): seq<nat>
    requires Wf(s) && AllAdmitted(es)
  {
    if es == [] then []
    else
      var n := |es| - 1;
      WfPositive(Run(s, es[..n]));
      RunIssued(s, es[..n]) + Issued(Run(s, es[..n]), es[n].event)
  }

  /** Over every run the generated ids rise strictly: no trade or event id is issued twice. */
  lemma {:induction false} IdsIssuedOnce(market: MarketConfig, es: seq<Input>)
    requires AllAdmitted(es)
    ensures Wf(CreateState(market))
    ensures Rising(RunIssued(CreateState(market), es), 0, Run(CreateState(market), es).seqNo)
  {
    GenesisWf(market);
    hide Wf, Step, Issued, Rising;
    if es == [] {
      NothingIssued(0);
    } else {
      var n := |es| - 1;
      IdsIssuedOnce(market, es[..n]);
      var s := Run(CreateState(market), es[..n]);
      StepIssues(s, es[n].event, es[n].id);
      RisingConcat(RunIssued(CreateState(market), es[..n]), Issued(s, es[n].event), 0, s.seqNo,
                   Run(CreateState(market), es).seqNo);
    }
  }
}
