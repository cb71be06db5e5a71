/** The trades of an accepted order and the book it leaves. */
module FilledBook {
  import opened Money
  import opened States
  import opened JsMaps
  import opened EngineSpec
  import opened Book
  import opened Invariants
  import opened GreedyMatching
  import opened OrderOutcomes
  import opened MarginShares

  /** The side an order trades with. */
  function Others(s: State, o: Place): seq<Order> { if o.side.Bid? then s.asks else s.bids }

  /** The side it rests on. */
  function Own(s: State, o: Place): seq<Order> { if o.side.Bid? then s.bids else s.asks }

  /** a is at least as good as b for the buyer or seller. */
  predicate NoWorse(taker: Side, a: int, b: int) { if taker.Bid? then a <= b else b <= a }

  /** Whatever trades before something else rests at a better price, or at the same price
      and was there earlier. */
  ghost predicate PriceTimeOrder(taker: Side, makers: seq<Order>, trades: seq<Execution>)
  {
    forall i, j :: 0 <= i < j < |makers| && i < |trades| ==>
      NoWorse(taker, makers[i].price, makers[j].price)
      && (makers[i].price == makers[j].price ==> makers[i].seqNo < makers[j].seqNo)
  }

  lemma SideInOrder(taker: Side, makers: seq<Order>, trades: seq<Execution>)
    requires SideOk(taker.Opposite(), makers)
    ensures PriceTimeOrder(taker, makers, trades)
  {
    forall i, j | 0 <= i < j < |makers|
      ensures NoWorse(taker, makers[i].price, makers[j].price)
      ensures makers[i].price == makers[j].price ==> makers[i].seqNo < makers[j].seqNo
    {
      assert Precedes(taker.Opposite(), makers[i], makers[j]);
    }
  }

  lemma {:induction false} TradeAmong(drafts: seq<Draft>, d: Draft)
    requires d in drafts && d.TradeExecuted?
    ensures Execution(d.makerOrderId, d.makerUserId, d.price, d.quantity) in TradesOf(drafts)
  {
    if d != drafts[0] { TradeAmong(drafts[1..], d); }
  }

  /** A trade of the order: with it as the taker, and never outside its limit. */
  predicate WithinLimit(o: Place, ts: nat, d: Draft)
    requires d.TradeExecuted?
  {
    && d.takerOrderId == o.orderId && d.takerUserId == o.userId && d.takerSide == o.side && d.ts == ts
    && 0 < d.quantity
    && (o.orderType.LIMIT? ==> if o.side.Bid? then d.price <= o.price else o.price <= d.price)
  }

  lemma TradesWithin(o: Place, ts: nat, makers: seq<Order>, drafts: seq<Draft>)
    requires TradesWithFirst(o, makers, TradesOf(drafts))
    requires forall d :: d in drafts && d.TradeExecuted? ==> FromLoop(o, ts, d)
    ensures forall d :: d in drafts && d.TradeExecuted? ==> WithinLimit(o, ts, d)
  {
    forall d | d in drafts && d.TradeExecuted? ensures WithinLimit(o, ts, d) {
      TradeAmong(drafts, d);
      var t := TradesOf(drafts);
      var i :| 0 <= i < |t| && t[i] == Execution(d.makerOrderId, d.makerUserId, d.price, d.quantity);
    }
  }

  lemma TradesAre(s: State, o: Place, ts: nat, c: Option<string>)
    requires Accepted(s, o)
    ensures var drafts := OnPlaceOrder(s, o, ts, c).1;
      && TradesOf(drafts) == GreedyTrades(o, Others(s, o), o.quantity)
      && (forall d :: d in drafts && d.TradeExecuted? ==> FromLoop(o, ts, d))
  {
    hide *;
    AcceptedIs(s, o, ts, c);
    OrderDraftsAre(o, ts, Executed(s, o, ts));
    OthersIs(s, o);
  }

  lemma OthersIs(s: State, o: Place)
    ensures Others(s, o) == MakersOf(s, o) == s.Orders(o.side.Opposite()) && Own(s, o) == s.Orders(o.side)
  {
  }

  lemma GreedyFacts(s: State, o: Place)
    requires Wf(s) && 0 < o.quantity
    ensures var trades := GreedyTrades(o, Others(s, o), o.quantity);
      && SideOk(o.side.Opposite(), Others(s, o))
      && TradesWithFirst(o, Others(s, o), trades)
      && PriceTimeOrder(o.side, Others(s, o), trades)
      && TotalQuantity(trades) == Min(o.quantity, CrossingDepth(o, Others(s, o)))
  {
    var makers := Others(s, o);
    assert SideOk(o.side.Opposite(), makers);
    hide Wf;
    GreedyTakesPrefix(o, makers, o.quantity);
    GreedyTotal(o, makers, o.quantity);
    SideInOrder(o.side, makers, GreedyTrades(o, makers, o.quantity));
  }

  /** Every trade of an accepted order is inside its limit. Trade i is with the i-th order
      of the other side, in price-time order; all but the last use their order up, and
      together they are as much as the limit and the book allow. */
  lemma TradesInsideTheLimit(s: State, o: Place, ts: nat, c: Option<string>)
    requires Accepted(s, o)
    ensures var drafts := OnPlaceOrder(s, o, ts, c).1;
      var trades := TradesOf(drafts);
      && (forall d :: d in drafts && d.TradeExecuted? ==> WithinLimit(o, ts, d))
      && TradesWithFirst(o, Others(s, o), trades)
      && PriceTimeOrder(o.side, Others(s, o), trades)
      && TotalQuantity(trades) == Min(o.quantity, CrossingDepth(o, Others(s, o)))
  {
    hide *;
    AcceptedIs(s, o, ts, c);
    TradesAre(s, o, ts, c);
    GreedyFacts(s, o);
    TradesWithin(o, ts, Others(s, o), OnPlaceOrder(s, o, ts, c).1);
  }

  // ----- The book afterwards -----

  /** What the trades leave of a side: the orders they did not reach and, if the last one
      was partial, its order with margin in proportion to what is left of it. */
  ghost predicate LeftOver(makers: seq<Order>, trades: seq<Execution>, rest: seq<Order>)
  {
    var n := |trades|;
    && n <= |makers|
    && if n == 0 || trades[n - 1].quantity == makers[n - 1].remaining then rest == makers[n..]
       else
         && |rest| == |makers| - n + 1 && rest[1..] == makers[n..]
         && PartlyTaken(makers[n - 1], trades[n - 1].quantity, rest[0])
  }

  predicate PartlyTaken(x: Order, quantity: int, y: Order)
  {
    && y == x.(remaining := x.remaining - quantity, margin := y.margin)
    && InProportion(y.margin, x.margin, y.remaining, x.remaining)
  }

  lemma PartIs(x: Order, quantity: int)
    requires 0 < quantity < x.remaining
    ensures PartlyTaken(x, quantity, MakerAfter(x, quantity))
  {
    RestInProportion(quantity, x.remaining, x.margin);
    hide InProportion;
  }

  lemma OneMore(makers: seq<Order>, trades: seq<Execution>, rest: seq<Order>, e: Execution)
    requires makers != [] && trades != [] && LeftOver(makers[1..], trades, rest)
    ensures LeftOver(makers, [e] + trades, rest)
  {
    var n := |trades|;
    assert ([e] + trades)[n] == trades[n - 1] && makers[1..][n - 1] == makers[n];
    assert makers[1..][n..] == makers[n + 1..];
    hide PartlyTaken;
  }

  lemma FirstGone(makers: seq<Order>, e: Execution)
    requires makers != [] && e.quantity == makers[0].remaining
    ensures LeftOver(makers, [e], makers[1..])
  {
  }

  lemma FirstPartly(makers: seq<Order>, e: Execution)
    requires makers != [] && 0 < e.quantity < makers[0].remaining
    ensures LeftOver(makers, [e], [MakerAfter(makers[0], e.quantity)] + makers[1..])
  {
    PartIs(makers[0], e.quantity);
    hide PartlyTaken, MakerAfter;
  }

  lemma NothingGone(makers: seq<Order>)
    ensures LeftOver(makers, [], makers)
  {
  }

  lemma RestUnfold(o: Place, s: seq<Order>, quantity: int)
    requires s != []
    ensures var t := Take(o, s[0], quantity);
      GreedyRest(o, s, quantity)
        == (if t < s[0].remaining then [MakerAfter(s[0], t)] else []) + GreedyRest(o, s[1..], quantity - t)
  {
  }

  lemma {:induction false} GreedyLeaves(o: Place, s: seq<Order>, quantity: int)
    requires SideOk(o.side.Opposite(), s) && 0 <= quantity
    ensures LeftOver(s, GreedyTrades(o, s, quantity), GreedyRest(o, s, quantity))
  {
    if s == [] {
    } else if quantity == 0 {
      NothingLeftToTake(o, s);
      NothingGone(s);
    } else if !Inside(o, s[0].price) {
      NothingCrosses(o, s, quantity);
      NothingGone(s);
    } else {
      var t := Take(o, s[0], quantity);
      var e := ExecutionOf(s[0], t);
      assert 0 < t <= s[0].remaining && SideOk(o.side.Opposite(), s[1..]);
      GreedyLeaves(o, s[1..], quantity - t);
      if quantity == t { NothingLeftToTake(o, s[1..]); }
      LeavesMore(o, s, quantity);
    }
  }

  lemma LeavesMore(o: Place, s: seq<Order>, quantity: int)
    requires s != [] && 0 < Take(o, s[0], quantity) <= s[0].remaining
    requires var q := quantity - Take(o, s[0], quantity);
      && LeftOver(s[1..], GreedyTrades(o, s[1..], q), GreedyRest(o, s[1..], q))
      && (Take(o, s[0], quantity) < s[0].remaining ==>
            GreedyTrades(o, s[1..], q) == [] && GreedyRest(o, s[1..], q) == s[1..])
    ensures LeftOver(s, GreedyTrades(o, s, quantity), GreedyRest(o, s, quantity))
  {
    var t := Take(o, s[0], quantity);
    var e := ExecutionOf(s[0], t);
    var trades, rest := GreedyTrades(o, s[1..], quantity - t), GreedyRest(o, s[1..], quantity - t);
    GreedyUnfold(o, s, quantity);
    RestUnfold(o, s, quantity);
    assert e.quantity == t;
    if trades == [] { assert rest == s[1..]; assert [e] + trades == [e]; }
    hide *;
    if t < s[0].remaining {
      FirstPartly(s, e);
      assert [MakerAfter(s[0], t)] + rest == [MakerAfter(s[0], t)] + s[1..];
    } else {
      assert [] + rest == rest;
      if trades == [] { FirstGone(s, e); } else { OneMore(s, trades, rest, e); }
    }
  }

  /** The rest of a limit order: behind everything at its price, with its own terms and its
      margin in proportion to what is left of it. */
  ghost predicate Rests(o: Place, ts: nat, left: int, before: seq<Order>, after: seq<Order>, x: Order)
  {
    && x == Order(o.orderId, o.userId, o.side, o.price, left, left, o.leverage, x.margin, x.seqNo, ts)
    && InProportion(x.margin, o.margin, left, o.quantity)
    && (forall y :: y in before ==> y.seqNo < x.seqNo)
    && |after| == |before| + 1 && (forall y :: y in after <==> y == x || y in before)
  }

  lemma ShareInProportion(part: int, whole: int, amount: int)
    requires 0 < whole
    ensures InProportion(RoundDiv(part * amount, whole), amount, part, whole)
  {
    RoundDivNear(part * amount, whole);
  }

  lemma RestsIs(s: State, o: Place, ts: nat, m: Matching)
    requires Ready(o, m) && 0 < m.remaining && m.s.Orders(o.side) == Own(s, o)
    ensures Rests(o, ts, m.remaining, Own(s, o), Insert(Own(s, o), RestingOrder(o, ts, m)), RestingOrder(o, ts, m))
  {
    var x := RestingOrder(o, ts, m);
    ShareInProportion(m.remaining, o.quantity, o.margin);
    TakerShareBounds(o, m.remaining);
    hide InProportion;
    forall y | y in Own(s, o) ensures y.seqNo < x.seqNo {
      var i :| 0 <= i < |Own(s, o)| && y == Own(s, o)[i];
    }
    InsertOk(o.side, Own(s, o), x);
    hide Insert, SideOk;
  }

  ghost predicate LeavesBook(s: State, o: Place, ts: nat, t: State, trades: seq<Execution>)
  {
    var left := o.quantity - TotalQuantity(trades);
    && LeftOver(Others(s, o), trades, Others(t, o))
    && (if o.orderType.LIMIT? && 0 < left then exists x :: Rests(o, ts, left, Own(s, o), Own(t, o), x)
        else Own(t, o) == Own(s, o))
    && t.lastTradePrice == if trades == [] then s.lastTradePrice else trades[|trades| - 1].price
  }

  lemma BookIs(s: State, o: Place, ts: nat, c: Option<string>)
    requires Accepted(s, o)
    ensures var t := OnPlaceOrder(s, o, ts, c).0;
      var m := MatchAll(o, ts, StartMatching(s, o));
      var trades := GreedyTrades(o, Others(s, o), o.quantity);
      && m.remaining == o.quantity - TotalQuantity(trades)
      && Others(t, o) == GreedyRest(o, Others(s, o), o.quantity)
      && Own(t, o) == (if o.orderType.LIMIT? && 0 < m.remaining then Insert(Own(s, o), RestingOrder(o, ts, m))
                       else Own(s, o))
      && t.lastTradePrice == LastPrice(trades, s.lastTradePrice)
      && Ready(o, m)
  {
    AcceptedIs(s, o, ts, c);
    hide Wf, Accepted, OnPlaceOrder, Placeable, Executed, MatchAll, StartMatching, OrderDrafts, GreedyTrades, GreedyRest,
      TradesOf, AllFromLoop, TotalQuantity, Ready, RestingOrder, Insert, LastPrice, TouchAll, NotionalUnits;
  }

  lemma OwnSideIs(s: State, o: Place, ts: nat)
    requires Placeable(s, o)
    ensures MatchAll(o, ts, StartMatching(s, o)).s.Orders(o.side) == Own(s, o)
  {
    StartMatchingReady(s, o);
    MatchTallies(o, ts, StartMatching(s, o));
    hide Placeable, Refusal, Wf, MatchAll, GreedyTrades, TouchAll, NotionalUnits, LastPrice;
  }

  /** The book after an accepted order: the other side without what was traded, and on its
      own side what is left of a limit order. */
  lemma BookAfterOrder(s: State, o: Place, ts: nat, c: Option<string>)
    requires Accepted(s, o)
    ensures var (t, drafts) := OnPlaceOrder(s, o, ts, c);
      LeavesBook(s, o, ts, t, TradesOf(drafts))
  {
    hide *;
    AcceptedIs(s, o, ts, c);
    TradesAre(s, o, ts, c);
    BookIs(s, o, ts, c);
    OwnSideIs(s, o, ts);
    GreedyFacts(s, o);
    GreedyLeaves(o, Others(s, o), o.quantity);
    LeavesIs(s, o, ts, OnPlaceOrder(s, o, ts, c).0, MatchAll(o, ts, StartMatching(s, o)));
  }

  lemma LeavesIs(s: State, o: Place, ts: nat, t: State, m: Matching)
    requires 0 < o.quantity && Ready(o, m) && m.s.Orders(o.side) == Own(s, o)
    requires var trades := GreedyTrades(o, Others(s, o), o.quantity);
      && m.remaining == o.quantity - TotalQuantity(trades)
      && LeftOver(Others(s, o), trades, Others(t, o))
      && Own(t, o) == (if o.orderType.LIMIT? && 0 < m.remaining then Insert(Own(s, o), RestingOrder(o, ts, m))
                       else Own(s, o))
      && t.lastTradePrice == LastPrice(trades, s.lastTradePrice)
    ensures LeavesBook(s, o, ts, t, GreedyTrades(o, Others(s, o), o.quantity))
  {
    hide Ready, GreedyTrades, LeftOver, Rests, RestingOrder, Insert, TotalQuantity;
    if 0 < m.remaining { RestsIs(s, o, ts, m); }
  }

  // ----- Depth -----

  /** Quantity traded at a price. */
  function TradedAt(trades: seq<Execution>, price: int): int
  {
    if trades == [] then 0
    else (if trades[0].price == price then trades[0].quantity else 0) + TradedAt(trades[1..], price)
  }

  lemma {:induction false} GreedyDepth(o: Place, s: seq<Order>, quantity: int, price: int)
    requires Positive(s) && 0 <= quantity
    ensures DepthAt(GreedyRest(o, s, quantity), price) + TradedAt(GreedyTrades(o, s, quantity), price)
         == DepthAt(s, price)
  {
    if s != [] {
      var t := Take(o, s[0], quantity);
      GreedyDepth(o, s[1..], quantity - t, price);
      var rest, trades := GreedyRest(o, s[1..], quantity - t), GreedyTrades(o, s[1..], quantity - t);
      var first := if t < s[0].remaining then [MakerAfter(s[0], t)] else [];
      DepthSplit(first, rest, price);
      var e := if 0 < t then [ExecutionOf(s[0], t)] else [];
      assert e != [] ==> (e + trades)[1..] == trades;
      assert first != [] ==> first[1..] == [];
      assert [] + trades == trades;
    }
  }

  /** At every price, what rests on the other side and what was traded there add up to
      what rested before, and the own side gains exactly what is left of a limit order. */
  lemma DepthIsConserved(s: State, o: Place, ts: nat, c: Option<string>, price: int)
    requires Accepted(s, o)
    ensures var (t, drafts) := OnPlaceOrder(s, o, ts, c);
      var trades := TradesOf(drafts);
      && DepthAt(Others(t, o), price) + TradedAt(trades, price) == DepthAt(Others(s, o), price)
      && DepthAt(Own(t, o), price)
         == DepthAt(Own(s, o), price)
            + (if o.orderType.LIMIT? && price == o.price then o.quantity - TotalQuantity(trades) else 0)
  {
    AcceptedIs(s, o, ts, c);
    WfPositive(s);
    TradesAre(s, o, ts, c);
    BookIs(s, o, ts, c);
    GreedyFacts(s, o);
    var m := MatchAll(o, ts, StartMatching(s, o));
    assert Positive(Others(s, o)) && 0 <= m.remaining;
    hide Wf, Accepted, OnPlaceOrder, Placeable, Executed, MatchAll, StartMatching, OrderDrafts, GreedyTrades, GreedyRest,
      TradesOf, AllFromLoop, TotalQuantity, Ready, Insert, LastPrice, TradedAt, DepthAt, SideOk, PriceTimeOrder,
      TradesWithFirst, Outcome, CrossingDepth, FromLoop, Positive, TakerShare;
    GreedyDepth(o, Others(s, o), o.quantity, price);
    DepthInsert(Own(s, o), RestingOrder(o, ts, m), price);
  }
}
