/** What an accepted order does: its trades, the book it leaves, and what is reported
    about it and about the orders it traded with. */
module OrderOutcomes {
  import opened Money
  import opened States
  import opened JsMaps
  import opened EngineSpec
  import opened Book
  import opened Invariants
  import opened GreedyMatching
  import opened Acceptance
  import MarginShares

  // ----- Tallies of the matching loop -----

  /** Trade i counted for order i. */
  function TouchAll(t: JsMap<Touched>, s: seq<Order>, trades: seq<Execution>): (r: JsMap<Touched>)
    ensures t.Ok() ==> r.Ok()
    decreases |trades|
  {
    if trades == [] || s == [] then t else TouchAll(Touch(t, s[0], trades[0].quantity), s[1..], trades[1..])
  }

  /** Price times quantity, each product rounded. */
  function NotionalUnits(trades: seq<Execution>): int
  {
    if trades == [] then 0 else RoundDiv(trades[0].price * trades[0].quantity, UNIT) + NotionalUnits(trades[1..])
  }

  function LastPrice(trades: seq<Execution>, before: int): int
  {
    if trades == [] then before else trades[|trades| - 1].price
  }

  /** From matching state m to n, after these trades. */
  ghost predicate Tallied(o: Place, m: Matching, n: Matching, trades: seq<Execution>)
  {
    && n.filledNotional == m.filledNotional + NotionalUnits(trades)
    && n.makerTouched == TouchAll(m.makerTouched, Makers(o, m), trades)
    && n.s.lastTradePrice == LastPrice(trades, m.s.lastTradePrice)
    && n.s.Orders(o.side) == m.s.Orders(o.side)
  }

  lemma StepTally(o: Place, ts: nat, m: Matching)
    requires Ready(o, m) && CanFill(o, m)
    ensures var x, qty, n := Makers(o, m)[0], FillQty(o, m), FillStep(o, ts, m);
      && n.filledNotional == m.filledNotional + RoundDiv(x.price * qty, UNIT)
      && n.makerTouched == Touch(m.makerTouched, x, qty)
      && n.s.lastTradePrice == x.price
      && n.s.Orders(o.side) == m.s.Orders(o.side)
      && n.remaining == m.remaining - qty
  {
    hide Touch, MakersAfter, MakerFill, TakerFill, RoundDiv;
  }

  /** Counting goes on with what is left of the side. */
  lemma TouchRest(o: Place, t: JsMap<Touched>, s: seq<Order>, quantity: int)
    requires s != [] && Positive(s) && 0 < quantity
    ensures var q := Min(quantity, s[0].remaining);
      TouchAll(t, MakersAfter(s, q), GreedyTrades(o, MakersAfter(s, q), quantity - q))
      == TouchAll(t, s[1..], GreedyTrades(o, MakersAfter(s, q), quantity - q))
  {
    var q := Min(quantity, s[0].remaining);
    if q < s[0].remaining {
      assert MakersAfter(s, q)[1..] == s[1..];
      NothingLeftToTake(o, MakersAfter(s, q));
    }
  }

  lemma FirstTally(t: JsMap<Touched>, s: seq<Order>, e: Execution, rest: seq<Execution>, before: int)
    requires s != []
    ensures TouchAll(t, s, [e] + rest) == TouchAll(Touch(t, s[0], e.quantity), s[1..], rest)
    ensures NotionalUnits([e] + rest) == RoundDiv(e.price * e.quantity, UNIT) + NotionalUnits(rest)
    ensures LastPrice([e] + rest, before) == LastPrice(rest, e.price)
  {
    assert ([e] + rest)[1..] == rest;
  }

  lemma {:induction false} MatchTallies(o: Place, ts: nat, m: Matching)
    requires Ready(o, m)
    ensures Tallied(o, m, MatchAll(o, ts, m), GreedyTrades(o, Makers(o, m), m.remaining))
    decreases |Makers(o, m)|, Max(0, m.remaining)
  {
    hide *;
    MatchUnfold(o, ts, m);
    if CanFill(o, m) {
      MatchTallies(o, ts, FillStep(o, ts, m));
      TalliesFrom(o, ts, m, MatchAll(o, ts, m));
    } else {
      NothingTallied(o, m);
    }
  }

  lemma NothingTallied(o: Place, m: Matching)
    requires Ready(o, m) && !CanFill(o, m)
    ensures Tallied(o, m, m, GreedyTrades(o, Makers(o, m), m.remaining))
  {
    ReadyPositive(o, m);
    if m.remaining == 0 {
      NothingLeftToTake(o, Makers(o, m));
    } else {
      NothingCrosses(o, Makers(o, m), m.remaining);
    }
  }

  lemma TalliesFrom(o: Place, ts: nat, m: Matching, n: Matching)
    requires Ready(o, m) && CanFill(o, m)
    requires var k := FillStep(o, ts, m); Tallied(o, k, n, GreedyTrades(o, Makers(o, k), k.remaining))
    ensures Tallied(o, m, n, GreedyTrades(o, Makers(o, m), m.remaining))
  {
    hide FillStep, Ready, CanFill, FillQty, Positive, GreedyTrades, MakersAfter, TouchAll, NotionalUnits, LastPrice, Touch,
      RoundDiv, FilledState, StepDrafts, MakerLeg, TakerLeg;
    var s, q := Makers(o, m), FillQty(o, m);
    ReadyPositive(o, m);
    FillsFirst(o, m);
    StepTally(o, ts, m);
    FillStepShape(o, ts, m);
    GreedyStep(o, s, m.remaining);
    var rest := GreedyTrades(o, MakersAfter(s, q), m.remaining - q);
    TouchRest(o, Touch(m.makerTouched, s[0], q), s, m.remaining);
    FirstTally(m.makerTouched, s, ExecutionOf(s[0], q), rest, m.s.lastTradePrice);
  }

  // ----- The drafts of the loop -----

  /** A depth update, or a trade of the order o. */
  predicate FromLoop(o: Place, ts: nat, d: Draft)
  {
    d.BookDelta?
    || (d.TradeExecuted? && d.takerOrderId == o.orderId && d.takerUserId == o.userId && d.takerSide == o.side && d.ts == ts)
  }

  predicate AllFromLoop(o: Place, ts: nat, drafts: seq<Draft>)
  {
    forall i :: 0 <= i < |drafts| ==> FromLoop(o, ts, drafts[i])
  }

  lemma AddedFromLoop(o: Place, ts: nat, outs: seq<Draft>, x: Order, qty: int, left: int, s: State)
    requires AllFromLoop(o, ts, outs)
    ensures AllFromLoop(o, ts, outs + StepDrafts(o, ts, x, qty, left, s))
  {
  }

  lemma StepFromLoop(o: Place, ts: nat, m: Matching)
    requires Ready(o, m) && CanFill(o, m) && AllFromLoop(o, ts, m.outs)
    ensures AllFromLoop(o, ts, FillStep(o, ts, m).outs)
  {
    var x, qty := Makers(o, m)[0], FillQty(o, m);
    ReadyPositive(o, m);
    FillStepShape(o, ts, m);
    hide FillStep, FilledState, Ready, CanFill, FillQty, StepDrafts, AllFromLoop, MakerLeg, TakerLeg, MakersAfter;
    AddedFromLoop(o, ts, m.outs, x, qty, m.remaining - qty, FilledState(o, m.s, qty));
  }

  lemma {:induction false} MatchFromLoop(o: Place, ts: nat, m: Matching)
    requires Ready(o, m) && AllFromLoop(o, ts, m.outs)
    ensures AllFromLoop(o, ts, MatchAll(o, ts, m).outs)
    decreases |Makers(o, m)|, Max(0, m.remaining)
  {
    hide *;
    MatchUnfold(o, ts, m);
    if CanFill(o, m) {
      StepFromLoop(o, ts, m);
      MatchFromLoop(o, ts, FillStep(o, ts, m));
    }
  }

  // ----- After the remainder is handled -----

  ghost predicate Placeable(s: State, o: Place)
  {
    Wf(s) && Refusal(s, o).None? && 0 < o.quantity && 0 < o.margin && 0 <= o.price
  }

  function MakersOf(s: State, o: Place): seq<Order> { s.Orders(o.side.Opposite()) }

  /** The matching state of an accepted order, in terms of its greedy trades. */
  ghost predicate Outcome(s: State, o: Place, ts: nat, m: Matching, r: Matching)
    requires 0 < o.quantity
  {
    var trades := GreedyTrades(o, MakersOf(s, o), o.quantity);
    && TradesOf(r.outs) == trades && AllFromLoop(o, ts, r.outs)
    && r.remaining == m.remaining == o.quantity - TotalQuantity(trades)
    && r.makerTouched == TouchAll(Empty(), MakersOf(s, o), trades)
    && r.filledNotional == NotionalUnits(trades)
    && r.s.lastTradePrice == LastPrice(trades, s.lastTradePrice)
    && MakersOf(r.s, o) == GreedyRest(o, MakersOf(s, o), o.quantity)
    && r.s.Orders(o.side) == if o.orderType.LIMIT? && 0 < r.remaining then Insert(s.Orders(o.side), RestingOrder(o, ts, m))
                             else s.Orders(o.side)
  }

  lemma RemainderIs(o: Place, ts: nat, m: Matching)
    requires 0 < o.quantity && AllFromLoop(o, ts, m.outs)
    ensures var r := HandleRemainder(o, ts, m);
      && TradesOf(r.outs) == TradesOf(m.outs) && AllFromLoop(o, ts, r.outs)
      && r.remaining == m.remaining && r.filledNotional == m.filledNotional && r.makerTouched == m.makerTouched
      && r.s.lastTradePrice == m.s.lastTradePrice && MakersOf(r.s, o) == MakersOf(m.s, o)
      && r.s.Orders(o.side) == if o.orderType.LIMIT? && 0 < m.remaining
                               then Insert(m.s.Orders(o.side), RestingOrder(o, ts, m)) else m.s.Orders(o.side)
  {
    if 0 < m.remaining && o.orderType.LIMIT? {
      var r := HandleRemainder(o, ts, m);
      var d := r.outs[|m.outs|];
      assert [d][1..] == [] && TradesOf([d][1..]) == [];
      TradesConcat(m.outs, [d]);
      assert TradesOf(m.outs) + [] == TradesOf(m.outs);
      hide TradesOf, RestingOrder, Insert;
    }
  }

  lemma StartIs(s: State, o: Place)
    ensures var m := StartMatching(s, o);
      && m.remaining == o.quantity && m.filledNotional == 0 && m.makerTouched == Empty() && m.outs == []
      && m.s.lastTradePrice == s.lastTradePrice && Makers(o, m) == MakersOf(s, o)
      && m.s.Orders(o.side) == s.Orders(o.side) && (forall ts :: AllFromLoop(o, ts, m.outs))
  {
  }

  lemma ExecutedIs(s: State, o: Place, ts: nat)
    requires Placeable(s, o)
    ensures Outcome(s, o, ts, MatchAll(o, ts, StartMatching(s, o)), Executed(s, o, ts))
  {
    var m0 := StartMatching(s, o);
    var m := MatchAll(o, ts, m0);
    StartMatchingReady(s, o);
    StartIs(s, o);
    OrderFillsGreedily(s, o, ts);
    hide Wf, Refusal, MatchAll, Ready, StartMatching, HandleRemainder, TotalQuantity, GreedyTrades, GreedyRest,
      TouchAll, NotionalUnits, LastPrice, RestingOrder, TradesOf, AllFromLoop, Insert, CrossingDepth, TradesWithFirst, Touch;
    MatchTallies(o, ts, m0);
    MatchFromLoop(o, ts, m0);
    RemainderIs(o, ts, m);
  }

  // ----- The drafts of the whole order -----

  /** The order reports among drafts. */
  function AcceptedOf(drafts: seq<Draft>): seq<Draft>
  {
    if drafts == [] then []
    else (if drafts[0].OrderAccepted? then [drafts[0]] else []) + AcceptedOf(drafts[1..])
  }

  lemma {:induction false} AcceptedConcat(a: seq<Draft>, b: seq<Draft>)
    ensures AcceptedOf(a + b) == AcceptedOf(a) + AcceptedOf(b)
  {
    if a == [] {
      assert a + b == b;
    } else {
      assert (a + b)[1..] == a[1..] + b;
      AcceptedConcat(a[1..], b);
    }
  }

  lemma {:induction false} NoneAccepted(drafts: seq<Draft>)
    requires forall i :: 0 <= i < |drafts| ==> !drafts[i].OrderAccepted?
    ensures AcceptedOf(drafts) == []
  {
    if drafts != [] { NoneAccepted(drafts[1..]); }
  }

  lemma {:induction false} OnlyAccepted(drafts: seq<Draft>)
    requires forall i :: 0 <= i < |drafts| ==> drafts[i].OrderAccepted?
    ensures AcceptedOf(drafts) == drafts && TradesOf(drafts) == []
  {
    if drafts != [] { OnlyAccepted(drafts[1..]); }
  }

  predicate Reports(drafts: seq<Draft>)
  {
    forall i :: 0 <= i < |drafts| ==> drafts[i].BalanceUpdated? || drafts[i].PositionUpdated?
  }

  lemma {:induction false} ReportAllReports(s: State, users: seq<string>)
    ensures Reports(ReportAll(s, users))
    decreases |users|
  {
    if users != [] { ReportAllReports(EnsurePosition(s, users[0]), users[1..]); }
  }

  lemma {:induction false} NoTradesReported(drafts: seq<Draft>)
    requires Reports(drafts)
    ensures TradesOf(drafts) == []
  {
    if drafts != [] { NoTradesReported(drafts[1..]); }
  }

  lemma {:induction false} MakersAcceptedAt(keys: seq<string>, t: JsMap<Touched>)
    requires forall k :: k in keys ==> k in t.at
    ensures var r := MakersAccepted(keys, t);
      |r| == |keys| && forall k :: 0 <= k < |keys| ==> r[k] == MakerAccepted(keys[k], t.at[keys[k]])
  {
    hide MakerAccepted;
    if keys != [] {
      MakersAcceptedAt(keys[1..], t);
    }
  }

  /** Loop drafts, order reports, account reports and one more order report. */
  predicate Segmented(o: Place, ts: nat, a: seq<Draft>, b: seq<Draft>, c: seq<Draft>, e: Draft)
  {
    AllFromLoop(o, ts, a) && (forall i :: 0 <= i < |b| ==> b[i].OrderAccepted?) && Reports(c) && e.OrderAccepted?
  }

  lemma SegmentFilters(o: Place, ts: nat, a: seq<Draft>, b: seq<Draft>, c: seq<Draft>, e: Draft)
    requires Segmented(o, ts, a, b, c, e)
    ensures AcceptedOf(a) == AcceptedOf(c) == [] && TradesOf(b) == TradesOf(c) == TradesOf([e]) == []
    ensures AcceptedOf(b) == b && AcceptedOf([e]) == [e]
  {
    NoneAccepted(a);
    OnlyAccepted(b);
    NoneAccepted(c);
    NoTradesReported(c);
    OnlyAccepted([e]);
    hide AcceptedOf, TradesOf, FromLoop;
  }

  lemma Segments(o: Place, ts: nat, a: seq<Draft>, b: seq<Draft>, c: seq<Draft>, e: Draft)
    requires Segmented(o, ts, a, b, c, e)
    ensures var d := a + b + c + [e]; TradesOf(d) == TradesOf(a) && AcceptedOf(d) == b + [e]
  {
    hide *;
    SegmentFilters(o, ts, a, b, c, e);
    ConcatFilters(a, b, c, [e]);
    assert TradesOf(a) + [] + [] + [] == TradesOf(a);
    assert [] + b + [] + [e] == b + [e];
  }

  lemma TradesInLoop(o: Place, ts: nat, a: seq<Draft>, b: seq<Draft>, c: seq<Draft>, e: Draft)
    requires Segmented(o, ts, a, b, c, e)
    ensures forall x :: x in a + b + c + [e] && x.TradeExecuted? ==> FromLoop(o, ts, x)
  {
    hide FromLoop;
    forall x | x in a + b + c + [e] && x.TradeExecuted? ensures FromLoop(o, ts, x) {
      assert x in a || x in b || x in c || x == e;
    }
  }

  lemma ConcatFilters(a: seq<Draft>, b: seq<Draft>, c: seq<Draft>, e: seq<Draft>)
    ensures TradesOf(a + b + c + e) == TradesOf(a) + TradesOf(b) + TradesOf(c) + TradesOf(e)
    ensures AcceptedOf(a + b + c + e) == AcceptedOf(a) + AcceptedOf(b) + AcceptedOf(c) + AcceptedOf(e)
  {
    hide AcceptedOf, TradesOf;
    AcceptedConcat(a + b + c, e);
    AcceptedConcat(a + b, c);
    AcceptedConcat(a, b);
    TradesConcat(a + b + c, e);
    TradesConcat(a + b, c);
    TradesConcat(a, b);
  }

  lemma OrderDraftsAre(o: Place, ts: nat, m: Matching)
    requires m.makerTouched.Ok() && AllFromLoop(o, ts, m.outs)
    ensures var d := OrderDrafts(o, m);
      var taker := TakerAccepted(o, m.remaining, m.filledNotional);
      && TradesOf(d) == TradesOf(m.outs)
      && AcceptedOf(d) == MakersAccepted(m.makerTouched.keys, m.makerTouched) + [taker]
      && d != [] && d[|d| - 1] == taker
      && (forall x :: x in d && x.TradeExecuted? ==> FromLoop(o, ts, x))
  {
    MakersAcceptedAt(m.makerTouched.keys, m.makerTouched);
    ReportAllReports(m.s, m.affected);
    hide AcceptedOf, TradesOf, MakersAccepted, ReportAll, Reports, AllFromLoop, FromLoop, StatusOf;
    var b, c := MakersAccepted(m.makerTouched.keys, m.makerTouched), ReportAll(m.s, m.affected);
    var taker := TakerAccepted(o, m.remaining, m.filledNotional);
    assert Segmented(o, ts, m.outs, b, c, taker);
    hide Segmented, TakerAccepted;
    Segments(o, ts, m.outs, b, c, taker);
    TradesInLoop(o, ts, m.outs, b, c, taker);
    assert OrderDrafts(o, m) == m.outs + b + c + [taker];
  }

  // ----- The accepted order as a whole -----

  /** An order the schema admits, accepted in a well-formed state. */
  ghost predicate Accepted(s: State, o: Place)
  {
    Wf(s) && Accepts(s, o) && 0 < o.quantity && 0 < o.margin && 0 <= o.price
  }

  lemma AcceptedIs(s: State, o: Place, ts: nat, c: Option<string>)
    requires Accepted(s, o)
    ensures Placeable(s, o) && Wf(s) && 0 < o.quantity
    ensures Positive(s.Orders(o.side.Opposite())) && Positive(Makers(o, StartMatching(s, o)))
    ensures var (t, d) := OnPlaceOrder(s, o, ts, c);
      var m, r := MatchAll(o, ts, StartMatching(s, o)), Executed(s, o, ts);
      && Outcome(s, o, ts, m, r) && Ready(o, m) && r.makerTouched.Ok() && AllFromLoop(o, ts, r.outs)
      && TradesOf(r.outs) == GreedyTrades(o, MakersOf(s, o), o.quantity)
      && d == OrderDrafts(o, r)
      && t.bids == r.s.bids && t.asks == r.s.asks && t.lastTradePrice == r.s.lastTradePrice
  {
    AcceptsIs(s, o);
    WfPositive(s);
    ExecutedIs(s, o, ts);
    StartIs(s, o);
    StartMatchingReady(s, o);
    MatchAllReady(o, ts, StartMatching(s, o));
    var r := Executed(s, o, ts);
    EnsureAllOnlyPositions(r.s, r.affected);
    hide Wf, Accepts, Refusal, MatchAll, StartMatching, EnsureAll, OrderDrafts, Outcome, Ready, HandleRemainder;
  }
}
