/** What is reported about an accepted order and about the orders it traded with. */
module OrderReports {
  import opened Money
  import opened States
  import opened JsMaps
  import opened EngineSpec
  import opened Book
  import opened Invariants
  import opened GreedyMatching
  import opened OrderOutcomes
  import opened FilledBook

  // ----- The report on the order itself -----

  /** Price times quantity of every trade, each product rounded. */
  function Notional(trades: seq<Execution>): real
  {
    if trades == [] then 0.0 else Q(Value(trades[0].price) * Value(trades[0].quantity)) + Notional(trades[1..])
  }

  /** What the report on an order with these trades says. */
  predicate ReportsOn(o: Place, trades: seq<Execution>, d: Draft)
  {
    var filled := TotalQuantity(trades);
    && d.OrderAccepted? && d.orderId == o.orderId && d.userId == o.userId
    && d.filledQuantity == filled && d.remainingQuantity == o.quantity - filled
    && (d.status.FILLED? <==> filled == o.quantity)
    && (d.status.PARTIAL? <==> 0 < filled < o.quantity)
    && (d.status.OPEN? <==> filled == 0 && o.orderType.LIMIT?)
    && (d.status.CANCELLED? <==> filled == 0 && o.orderType.MARKET?)
    && (filled == 0 ==> d.avgFillPrice == 0)
    && (filled != 0 ==> Value(d.avgFillPrice) == Q(Notional(trades) / Value(filled)))
  }

  lemma ValueSum(a: int, b: int)
    ensures Value(a + b) == Value(a) + Value(b)
  {
  }

  lemma {:induction false} NotionalIs(trades: seq<Execution>)
    ensures Value(NotionalUnits(trades)) == Notional(trades)
  {
    if trades != [] {
      NotionalIs(trades[1..]);
      QProduct(trades[0].price, trades[0].quantity);
      ValueSum(RoundDiv(trades[0].price * trades[0].quantity, UNIT), NotionalUnits(trades[1..]));
      hide Q, Value, RoundDiv;
    }
  }

  lemma AverageIs(trades: seq<Execution>, filled: int)
    requires 0 < filled
    ensures Value(RoundDiv(NotionalUnits(trades) * UNIT, filled)) == Q(Notional(trades) / Value(filled))
  {
    NotionalIs(trades);
    QRatio(NotionalUnits(trades), filled);
    hide Q, Value, RoundDiv;
  }

  lemma StatusIs(o: Place, left: int, notional: int)
    requires 0 < o.quantity && 0 <= left <= o.quantity
    ensures var d := TakerAccepted(o, left, notional);
      && d.OrderAccepted? && d.orderId == o.orderId && d.userId == o.userId
      && d.filledQuantity == o.quantity - left && d.remainingQuantity == left
      && (d.status.FILLED? <==> left == 0) && (d.status.PARTIAL? <==> 0 < left < o.quantity)
      && (d.status.OPEN? <==> left == o.quantity && o.orderType.LIMIT?)
      && (d.status.CANCELLED? <==> left == o.quantity && o.orderType.MARKET?)
      && (left == o.quantity ==> d.avgFillPrice == 0)
      && (left < o.quantity ==> d.avgFillPrice == RoundDiv(notional * UNIT, o.quantity - left))
  {
    hide RoundDiv;
  }

  lemma TakerReported(o: Place, trades: seq<Execution>)
    requires 0 < o.quantity && 0 <= TotalQuantity(trades) <= o.quantity
    ensures ReportsOn(o, trades, TakerAccepted(o, o.quantity - TotalQuantity(trades), NotionalUnits(trades)))
  {
    hide TakerAccepted, Q, Value, RoundDiv, TotalQuantity, Notional, NotionalUnits;
    var filled := TotalQuantity(trades);
    StatusIs(o, o.quantity - filled, NotionalUnits(trades));
    if filled != 0 { AverageIs(trades, filled); }
  }

  // ----- The reports on the orders it traded with -----

  /** Quantity traded with orders of this id. */
  function TotalFor(trades: seq<Execution>, id: string): int
  {
    if trades == [] then 0
    else (if trades[0].makerOrderId == id then trades[0].quantity else 0) + TotalFor(trades[1..], id)
  }

  /** Trade i is the first with this maker order id. */
  predicate FirstWith(trades: seq<Execution>, i: nat, id: string)
  {
    i < |trades| && trades[i].makerOrderId == id && forall j :: 0 <= j < i ==> trades[j].makerOrderId != id
  }

  ghost predicate WithMakers(s: seq<Order>, trades: seq<Execution>)
  {
    |trades| <= |s| && forall i :: 0 <= i < |trades| ==> trades[i].makerOrderId == s[i].orderId
  }

  /** The count kept for one id, from the count before and the trades. */
  ghost predicate CountedFor(t: JsMap<Touched>, s: seq<Order>, trades: seq<Execution>, id: string, r: JsMap<Touched>)
    requires WithMakers(s, trades)
  {
    && (id in t.at ==> id in r.at && r.at[id] == t.at[id].(filled := t.at[id].filled + TotalFor(trades, id)))
    && (id !in t.at && id in r.at ==> exists i: nat :: FirstWith(trades, i, id))
    && (id !in t.at ==> forall i: nat :: FirstWith(trades, i, id) ==>
          id in r.at && r.at[id] == Touched(s[i].quantity, TotalFor(trades, id), s[i].userId))
  }

  lemma NotTradedYet(trades: seq<Execution>, i: nat, id: string)
    requires trades != [] && trades[0].makerOrderId != id
    ensures FirstWith(trades, i + 1, id) <==> FirstWith(trades[1..], i, id)
    ensures !FirstWith(trades, 0, id)
  {
    if FirstWith(trades[1..], i, id) {
      forall j | 0 <= j < i + 1 ensures trades[j].makerOrderId != id {
        if 0 < j { assert trades[1..][j - 1].makerOrderId != id; }
      }
    }
    if FirstWith(trades, i + 1, id) {
      forall j | 0 <= j < i ensures trades[1..][j].makerOrderId != id { assert trades[j + 1].makerOrderId != id; }
    }
  }

  lemma {:induction false} TouchCounts(t: JsMap<Touched>, s: seq<Order>, trades: seq<Execution>, id: string)
    requires WithMakers(s, trades)
    ensures CountedFor(t, s, trades, id, TouchAll(t, s, trades))
    decreases |trades|
  {
    if trades != [] {
      var t1 := Touch(t, s[0], trades[0].quantity);
      TouchCounts(t1, s[1..], trades[1..], id);
      var r := TouchAll(t, s, trades);
      if trades[0].makerOrderId == id {
        assert FirstWith(trades, 0, id);
        forall i: nat | FirstWith(trades, i, id) ensures i == 0 {}
      } else {
        CountLater(t, s, trades, id, r, t1);
      }
    }
  }

  lemma CountLater(t: JsMap<Touched>, s: seq<Order>, trades: seq<Execution>, id: string, r: JsMap<Touched>,
                   t1: JsMap<Touched>)
    requires WithMakers(s, trades) && trades != [] && trades[0].makerOrderId != id
    requires (id in t1.at <==> id in t.at) && (id in t.at ==> t1.at[id] == t.at[id])
    requires WithMakers(s[1..], trades[1..]) && CountedFor(t1, s[1..], trades[1..], id, r)
    ensures CountedFor(t, s, trades, id, r)
  {
    assert TotalFor(trades, id) == TotalFor(trades[1..], id);
    if id !in t.at {
      forall i: nat | FirstWith(trades, i, id)
        ensures id in r.at && r.at[id] == Touched(s[i].quantity, TotalFor(trades, id), s[i].userId)
      {
        NotTradedYet(trades, 0, id);
        if 0 < i { NotTradedYet(trades, i - 1, id); }
      }
      if id in r.at {
        var i: nat :| FirstWith(trades[1..], i, id);
        NotTradedYet(trades, i, id);
      }
    }
  }

  /** The report on an order x of which `filled` was traded. */
  function MakerReport(x: Order, filled: int): Draft
  {
    var left := x.quantity - filled;
    if 0 < left then OrderAccepted(x.orderId, x.userId, PARTIAL, filled, left, 0)
    else OrderAccepted(x.orderId, x.userId, FILLED, filled, 0, 0)
  }

  /** A report on the first order traded with under its id, with all trades under it. */
  ghost predicate ReportsOne(makers: seq<Order>, trades: seq<Execution>, d: Draft)
    requires WithMakers(makers, trades) && d.OrderAccepted?
  {
    exists i: nat :: FirstWith(trades, i, d.orderId) && d == MakerReport(makers[i], TotalFor(trades, d.orderId))
  }

  /** One report for every order id traded with, with the total of the trades with it and
      the owner and size of the first such order. */
  ghost predicate ReportsMakers(makers: seq<Order>, trades: seq<Execution>, reports: seq<Draft>)
    requires WithMakers(makers, trades)
  {
    && (forall k :: 0 <= k < |reports| ==> reports[k].OrderAccepted?)
    && (forall j, k :: 0 <= j < k < |reports| ==> reports[j].orderId != reports[k].orderId)
    && (forall k :: 0 <= k < |reports| ==> ReportsOne(makers, trades, reports[k]))
    && (forall i :: 0 <= i < |trades| ==> exists k :: 0 <= k < |reports| && reports[k].orderId == trades[i].makerOrderId)
  }

  lemma {:induction false} HasFirst(trades: seq<Execution>, i: nat) returns (j: nat)
    requires i < |trades|
    ensures FirstWith(trades, j, trades[i].makerOrderId)
    decreases i
  {
    if k :| 0 <= k < i && trades[k].makerOrderId == trades[i].makerOrderId {
      j := HasFirst(trades, k);
    } else {
      j := i;
    }
  }

  lemma OneReported(makers: seq<Order>, trades: seq<Execution>, id: string)
    requires WithMakers(makers, trades) && id in TouchAll(Empty(), makers, trades).at
    ensures var d := MakerAccepted(id, TouchAll(Empty(), makers, trades).at[id]);
      d.orderId == id && ReportsOne(makers, trades, d)
  {
    TouchCounts(Empty(), makers, trades, id);
    var i: nat :| FirstWith(trades, i, id);
    assert makers[i].orderId == id;
    hide TouchAll, TotalFor;
  }

  lemma TradedReported(makers: seq<Order>, trades: seq<Execution>, i: nat)
    requires WithMakers(makers, trades) && i < |trades|
    ensures trades[i].makerOrderId in TouchAll(Empty(), makers, trades).at
  {
    var j := HasFirst(trades, i);
    TouchCounts(Empty(), makers, trades, trades[i].makerOrderId);
    hide TouchAll, TotalFor;
  }

  lemma MakersReported(makers: seq<Order>, trades: seq<Execution>)
    requires WithMakers(makers, trades)
    ensures var t := TouchAll(Empty(), makers, trades);
      t.Ok() && ReportsMakers(makers, trades, MakersAccepted(t.keys, t))
  {
    var t := TouchAll(Empty(), makers, trades);
    assert t.Ok();
    var reports := MakersAccepted(t.keys, t);
    MakersAcceptedAt(t.keys, t);
    forall k | 0 <= k < |reports|
      ensures reports[k].OrderAccepted? && reports[k].orderId == t.keys[k] && ReportsOne(makers, trades, reports[k])
    {
      OneReported(makers, trades, t.keys[k]);
    }
    AllReported(makers, trades, reports);
  }

  lemma AllReported(makers: seq<Order>, trades: seq<Execution>, reports: seq<Draft>)
    requires WithMakers(makers, trades)
    requires var t := TouchAll(Empty(), makers, trades);
      t.Ok() && |reports| == |t.keys|
      && forall k :: 0 <= k < |reports| ==>
           reports[k].OrderAccepted? && reports[k].orderId == t.keys[k] && ReportsOne(makers, trades, reports[k])
    ensures ReportsMakers(makers, trades, reports)
  {
    var t := TouchAll(Empty(), makers, trades);
    hide TouchAll, ReportsOne;
    forall j, k | 0 <= j < k < |reports| ensures reports[j].orderId != reports[k].orderId {
      assert t.keys[j] != t.keys[k];
    }
    forall i | 0 <= i < |trades| ensures exists k :: 0 <= k < |reports| && reports[k].orderId == trades[i].makerOrderId {
      TradedReported(makers, trades, i);
      assert trades[i].makerOrderId in t.keys;
      var k :| 0 <= k < |t.keys| && t.keys[k] == trades[i].makerOrderId;
      assert reports[k].orderId == t.keys[k];
    }
    assert forall k :: 0 <= k < |reports| ==> ReportsOne(makers, trades, reports[k]);
  }

  lemma ReportsFrom(o: Place, ts: nat, r: Matching, makers: seq<Order>, trades: seq<Execution>)
    requires 0 < o.quantity && 0 <= TotalQuantity(trades) <= o.quantity && WithMakers(makers, trades)
    requires AllFromLoop(o, ts, r.outs)
    requires r.remaining == o.quantity - TotalQuantity(trades) && r.filledNotional == NotionalUnits(trades)
    requires r.makerTouched == TouchAll(Empty(), makers, trades)
    ensures var drafts := OrderDrafts(o, r);
      var reports := AcceptedOf(drafts);
      var n := |reports| - 1;
      && 0 <= n && drafts != [] && drafts[|drafts| - 1] == reports[n]
      && ReportsOn(o, trades, reports[n]) && ReportsMakers(makers, trades, reports[..n])
  {
    hide TotalQuantity, NotionalUnits, TouchAll, AllFromLoop, ReportsOn, ReportsMakers, TakerAccepted, MakersAccepted,
      AcceptedOf, OrderDrafts, WithMakers;
    MakersReported(makers, trades);
    TakerReported(o, trades);
    OrderDraftsAre(o, ts, r);
    var b := MakersAccepted(r.makerTouched.keys, r.makerTouched);
    assert (b + [TakerAccepted(o, r.remaining, r.filledNotional)])[..|b|] == b;
  }

  /** An accepted order is reported last, with its trades; before it, every order it traded
      with is reported once; and nothing else is. */
  lemma AcceptedOrderReports(s: State, o: Place, ts: nat, c: Option<string>)
    requires Accepted(s, o)
    ensures var drafts := OnPlaceOrder(s, o, ts, c).1;
      var trades, reports := TradesOf(drafts), AcceptedOf(drafts);
      var n := |reports| - 1;
      && 0 <= n && drafts[|drafts| - 1] == reports[n]
      && ReportsOn(o, trades, reports[n])
      && WithMakers(Others(s, o), trades) && ReportsMakers(Others(s, o), trades, reports[..n])
  {
    hide *;
    AcceptedIs(s, o, ts, c);
    TradesAre(s, o, ts, c);
    GreedyFacts(s, o);
    var r := Executed(s, o, ts);
    OutcomeIs(s, o, ts, MatchAll(o, ts, StartMatching(s, o)), r);
    var trades := GreedyTrades(o, Others(s, o), o.quantity);
    TotalIs(o, Others(s, o), trades);
    ReportsFrom(o, ts, r, Others(s, o), trades);
  }

  lemma OutcomeIs(s: State, o: Place, ts: nat, m: Matching, r: Matching)
    requires 0 < o.quantity && Outcome(s, o, ts, m, r)
    ensures var trades := GreedyTrades(o, Others(s, o), o.quantity);
      && r.remaining == o.quantity - TotalQuantity(trades)
      && r.makerTouched == TouchAll(Empty(), Others(s, o), trades)
      && r.filledNotional == NotionalUnits(trades)
  {
    hide GreedyTrades, GreedyRest, TouchAll, NotionalUnits, TotalQuantity, RestingOrder, Insert;
  }

  lemma {:induction false} TotalNonNegative(trades: seq<Execution>)
    requires forall i :: 0 <= i < |trades| ==> 0 < trades[i].quantity
    ensures 0 <= TotalQuantity(trades)
  {
    if trades != [] { TotalNonNegative(trades[1..]); }
  }

  lemma TotalIs(o: Place, makers: seq<Order>, trades: seq<Execution>)
    requires 0 < o.quantity && TradesWithFirst(o, makers, trades)
    requires TotalQuantity(trades) == Min(o.quantity, CrossingDepth(o, makers))
    ensures 0 <= TotalQuantity(trades) <= o.quantity && WithMakers(makers, trades)
  {
    TotalNonNegative(trades);
    hide CrossingDepth, TotalQuantity;
  }

  // ----- With distinct ids -----

  predicate DistinctIds(s: seq<Order>)
  {
    forall i, j :: 0 <= i < j < |s| ==> s[i].orderId != s[j].orderId
  }

  lemma {:induction false} NotTraded(trades: seq<Execution>, id: string)
    requires forall i :: 0 <= i < |trades| ==> trades[i].makerOrderId != id
    ensures TotalFor(trades, id) == 0
  {
    if trades != [] { NotTraded(trades[1..], id); }
  }

  lemma {:induction false} TradedOnce(trades: seq<Execution>, i: nat)
    requires i < |trades|
    requires forall j :: 0 <= j < |trades| && j != i ==> trades[j].makerOrderId != trades[i].makerOrderId
    ensures TotalFor(trades, trades[i].makerOrderId) == trades[i].quantity
    ensures forall j: nat :: FirstWith(trades, j, trades[i].makerOrderId) ==> j == i
  {
    if i == 0 {
      NotTraded(trades[1..], trades[0].makerOrderId);
    } else {
      TradedOnce(trades[1..], i - 1);
    }
  }

  lemma OwnReport(makers: seq<Order>, trades: seq<Execution>, reports: seq<Draft>, i: nat)
    requires WithMakers(makers, trades) && ReportsMakers(makers, trades, reports)
    requires DistinctIds(makers) && i < |trades|
    ensures MakerReport(makers[i], trades[i].quantity) in reports
  {
    var id := trades[i].makerOrderId;
    var k :| 0 <= k < |reports| && reports[k].orderId == id;
    assert ReportsOne(makers, trades, reports[k]);
    forall j | 0 <= j < |trades| && j != i ensures trades[j].makerOrderId != id {
      assert makers[j].orderId != makers[i].orderId;
    }
    TradedOnce(trades, i);
    hide TotalFor, FirstWith, MakerReport;
    assert reports[k] in reports;
  }

  /** With distinct ids every order traded with gets a report of its own, of its own trade.
      It gives the quantity really left, and calls an order filled that is used up, exactly
      if no earlier order had traded with it. */
  lemma MakerReportIsTrueExactlyIf(s: State, o: Place, ts: nat, c: Option<string>, i: nat)
    requires Accepted(s, o) && DistinctIds(Others(s, o)) && i < |TradesOf(OnPlaceOrder(s, o, ts, c).1)|
    ensures i < |Others(s, o)|
    ensures var drafts := OnPlaceOrder(s, o, ts, c).1;
      var x, q := Others(s, o)[i], TradesOf(drafts)[i].quantity;
      var d := MakerReport(x, q);
      && d in AcceptedOf(drafts)
      && (d.remainingQuantity == x.remaining - q <==> x.remaining == x.quantity)
      && (q == x.remaining ==> (d.status.FILLED? <==> x.remaining == x.quantity))
  {
    hide *;
    AcceptedIs(s, o, ts, c);
    AcceptedOrderReports(s, o, ts, c);
    TradesInsideTheLimit(s, o, ts, c);
    var drafts := OnPlaceOrder(s, o, ts, c).1;
    var reports := AcceptedOf(drafts);
    OwnReport(Others(s, o), TradesOf(drafts), reports[..|reports| - 1], i);
    TradedWith(s, o, TradesOf(drafts), i);
    ReportedLeft(Others(s, o)[i], TradesOf(drafts)[i].quantity);
  }

  lemma TradedWith(s: State, o: Place, trades: seq<Execution>, i: nat)
    requires Wf(s) && TradesWithFirst(o, Others(s, o), trades) && i < |trades|
    ensures i < |Others(s, o)| && 0 < trades[i].quantity <= Others(s, o)[i].remaining <= Others(s, o)[i].quantity
  {
    assert SideOk(o.side.Opposite(), Others(s, o));
    hide Wf;
    assert WellPlaced(Others(s, o)[i], o.side.Opposite());
  }

  lemma ReportedLeft(x: Order, q: int)
    requires 0 < q <= x.remaining <= x.quantity
    ensures var d := MakerReport(x, q);
      && (d.remainingQuantity == x.remaining - q <==> x.remaining == x.quantity)
      && (q == x.remaining ==> (d.status.FILLED? <==> x.remaining == x.quantity))
  {
  }
}
