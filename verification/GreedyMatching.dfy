/** The matching loop refines greedy consumption of the opposite side: walk the resting
    orders in priority order and take from each one that crosses. */
module GreedyMatching {
  import opened Money
  import opened States
  import opened JsMaps
  import opened EngineSpec
  import opened Book
  import opened Invariants

  /** An execution, as a trade event reports it. */
  datatype Execution = Execution(makerOrderId: string, makerUserId: string, price: int, quantity: int)

  /** A price no worse than the limit, if the order has one. */
  predicate Inside(o: Place, price: int)
  {
    match (o.orderType, o.side)
    case (MARKET, _) => true
    case (LIMIT, Bid) => price <= o.price
    case (LIMIT, Ask) => o.price <= price
  }

  /** What the incoming order may take from one resting order. */
  function Take(o: Place, x: Order, quantity: int): int
  {
    if Inside(o, x.price) then Min(quantity, x.remaining) else 0
  }

  function ExecutionOf(x: Order, quantity: int): Execution
  {
    Execution(x.orderId, x.userId, x.price, quantity)
  }

  /** Reference: every resting order is considered, none is skipped over early. */
  function GreedyTrades(o: Place, s: seq<Order>, quantity: int): seq<Execution>
  {
    if s == [] then []
    else
      var t := Take(o, s[0], quantity);
      (if 0 < t then [ExecutionOf(s[0], t)] else [])
      + GreedyTrades(o, s[1..], quantity - t)
  }

  /** Reference: what stays on the book. */
  function GreedyRest(o: Place, s: seq<Order>, quantity: int): seq<Order>
  {
    if s == [] then []
    else
      var t := Take(o, s[0], quantity);
      (if t < s[0].remaining then [MakerAfter(s[0], t)] else []) + GreedyRest(o, s[1..], quantity - t)
  }

  /** Everything on the side that the order could trade with. */
  function CrossingDepth(o: Place, s: seq<Order>): int
  {
    if s == [] then 0
    else (if Inside(o, s[0].price) then s[0].remaining else 0) + CrossingDepth(o, s[1..])
  }

  function TotalQuantity(t: seq<Execution>): int
  {
    if t == [] then 0 else t[0].quantity + TotalQuantity(t[1..])
  }

  function TradeOf(d: Draft): seq<Execution>
  {
    if d.TradeExecuted? then [Execution(d.makerOrderId, d.makerUserId, d.price, d.quantity)] else []
  }

  /** The executions among drafts, in order. */
  function TradesOf(drafts: seq<Draft>): seq<Execution>
  {
    if drafts == [] then [] else TradeOf(drafts[0]) + TradesOf(drafts[1..])
  }

  /** The maker's and the taker's leg of a trade event. */
  function LegPair(d: Draft): seq<Leg>
  {
    if d.TradeExecuted? then
      var signed := if d.takerSide.Bid? then d.quantity else -d.quantity;
      [Leg(d.makerUserId, -signed, d.price, false), Leg(d.takerUserId, signed, d.price, false)]
    else []
  }

  function LegsOf(drafts: seq<Draft>): seq<Leg>
  {
    if drafts == [] then [] else LegPair(drafts[0]) + LegsOf(drafts[1..])
  }

  lemma {:induction false} TradesConcat(a: seq<Draft>, b: seq<Draft>)
    ensures TradesOf(a + b) == TradesOf(a) + TradesOf(b)
  {
    if a == [] {
      assert a + b == b;
    } else {
      assert (a + b)[1..] == a[1..] + b;
      TradesConcat(a[1..], b);
    }
  }

  lemma {:induction false} LegsConcat(a: seq<Draft>, b: seq<Draft>)
    ensures LegsOf(a + b) == LegsOf(a) + LegsOf(b)
  {
    if a == [] {
      assert a + b == b;
    } else {
      assert (a + b)[1..] == a[1..] + b;
      LegsConcat(a[1..], b);
    }
  }

  lemma MakerAfterNothing(x: Order)
    ensures MakerAfter(x, 0) == x
  {
    if 0 < x.remaining {
      RoundDivExact(0, x.remaining);
    }
  }

  lemma {:induction false} NothingLeftToTake(o: Place, s: seq<Order>)
    requires Positive(s)
    ensures GreedyTrades(o, s, 0) == [] && GreedyRest(o, s, 0) == s
  {
    if s != [] {
      MakerAfterNothing(s[0]);
      NothingLeftToTake(o, s[1..]);
    }
  }

  /** If the best price does not cross, nothing on the side does. */
  lemma {:induction false} NothingCrosses(o: Place, s: seq<Order>, quantity: int)
    requires SideOk(o.side.Opposite(), s)
    requires s != [] ==> !Inside(o, s[0].price)
    ensures GreedyTrades(o, s, quantity) == [] && GreedyRest(o, s, quantity) == s && CrossingDepth(o, s) == 0
  {
    if s != [] {
      if |s| > 1 { assert Precedes(o.side.Opposite(), s[0], s[1]); }
      MakerAfterNothing(s[0]);
      NothingCrosses(o, s[1..], quantity);
    }
  }

  /** Greedy consumption trades exactly min(quantity, crossing depth). */
  lemma {:induction false} GreedyTotal(o: Place, s: seq<Order>, quantity: int)
    requires Positive(s) && 0 <= quantity
    ensures 0 <= CrossingDepth(o, s)
    ensures TotalQuantity(GreedyTrades(o, s, quantity)) == Min(quantity, CrossingDepth(o, s))
  {
    if s != [] {
      var t := Take(o, s[0], quantity);
      GreedyTotal(o, s[1..], quantity - t);
      var rest := GreedyTrades(o, s[1..], quantity - t);
      var e := ExecutionOf(s[0], t);
      assert ([e] + rest)[1..] == rest && [] + rest == rest;
    }
  }

  /** Execution i is with the resting order at[i]: at that order's price, inside the limit,
      of a positive quantity, and of all that rests there unless it is the last one. */
  ghost predicate TradesAt(o: Place, s: seq<Order>, t: seq<Execution>, at: seq<nat>)
  {
    && |at| == |t|
    && (forall i :: 0 <= i < |at| ==> at[i] < |s|)
    && (forall i, j :: 0 <= i < j < |at| ==> at[i] < at[j])
    && (forall i :: 0 <= i < |t| ==>
          && t[i] == ExecutionOf(s[at[i]], t[i].quantity)
          && 0 < t[i].quantity <= s[at[i]].remaining && Inside(o, t[i].price)
          && (i + 1 < |t| ==> t[i].quantity == s[at[i]].remaining))
  }

  function Shifted(at: seq<nat>): seq<nat> { seq(|at|, i requires 0 <= i < |at| => at[i] + 1) }

  lemma ShiftTrades(o: Place, s: seq<Order>, t: seq<Execution>, at: seq<nat>)
    requires s != [] && TradesAt(o, s[1..], t, at)
    ensures TradesAt(o, s, t, Shifted(at))
  {
    hide Inside;
  }

  lemma PrependTrade(o: Place, s: seq<Order>, t: seq<Execution>, at: seq<nat>, e: Execution)
    requires s != [] && TradesAt(o, s[1..], t, at)
    requires e == ExecutionOf(s[0], e.quantity) && 0 < e.quantity <= s[0].remaining && Inside(o, e.price)
    requires t != [] ==> e.quantity == s[0].remaining
    ensures TradesAt(o, s, [e] + t, [0] + Shifted(at))
  {
    ShiftTrades(o, s, t, at);
    hide Inside, Shifted, ExecutionOf;
    ShiftedAt(at);
  }

  lemma ShiftedAt(at: seq<nat>)
    ensures |Shifted(at)| == |at| && forall i :: 0 <= i < |at| ==> Shifted(at)[i] == at[i] + 1
  {
  }

  /** Greedy trades are with distinct resting orders, in book order, each used up but
      possibly the last. */
  lemma {:induction false} GreedyExecutions(o: Place, s: seq<Order>, quantity: int)
    requires Positive(s) && 0 <= quantity
    ensures exists at :: TradesAt(o, s, GreedyTrades(o, s, quantity), at)
  {
    if s == [] {
      assert TradesAt(o, s, GreedyTrades(o, s, quantity), []);
    } else {
      var t := Take(o, s[0], quantity);
      GreedyExecutions(o, s[1..], quantity - t);
      if quantity == t { NothingLeftToTake(o, s[1..]); }
      var at :| TradesAt(o, s[1..], GreedyTrades(o, s[1..], quantity - t), at);
      ExecutionsFrom(o, s, quantity, at);
    }
  }

  lemma ExecutionsFrom(o: Place, s: seq<Order>, quantity: int, at: seq<nat>)
    requires s != [] && Positive(s) && 0 <= quantity
    requires var t := Take(o, s[0], quantity);
      && TradesAt(o, s[1..], GreedyTrades(o, s[1..], quantity - t), at)
      && (quantity == t ==> GreedyTrades(o, s[1..], quantity - t) == [])
    ensures exists a :: TradesAt(o, s, GreedyTrades(o, s, quantity), a)
  {
    var t := Take(o, s[0], quantity);
    var e, rest := ExecutionOf(s[0], t), GreedyTrades(o, s[1..], quantity - t);
    assert t <= s[0].remaining && e == ExecutionOf(s[0], e.quantity) && e.quantity == t && e.price == s[0].price;
    assert 0 < t ==> Inside(o, e.price) && (rest != [] ==> t == s[0].remaining);
    hide GreedyTrades, TradesAt, Inside, Take, ExecutionOf, Shifted;
    GreedyUnfold(o, s, quantity);
    if 0 < t {
      PrependTrade(o, s, rest, at, e);
    } else {
      ShiftTrades(o, s, rest, at);
      assert [] + rest == rest;
    }
  }

  lemma GreedyUnfold(o: Place, s: seq<Order>, quantity: int)
    requires s != []
    ensures var t := Take(o, s[0], quantity);
      GreedyTrades(o, s, quantity)
        == (if 0 < t then [ExecutionOf(s[0], t)] else []) + GreedyTrades(o, s[1..], quantity - t)
  {
  }

  lemma PrependFirst(o: Place, s: seq<Order>, t: int, rest: seq<Execution>, quantity: int)
    requires s != [] && Inside(o, s[0].price) && 0 <= t <= s[0].remaining && TradesWithFirst(o, s[1..], rest)
    requires rest != [] ==> t == s[0].remaining && 0 < t
    ensures TradesWithFirst(o, s, (if 0 < t then [ExecutionOf(s[0], t)] else []) + rest)
  {
    hide Inside;
    if t <= 0 { assert rest == [] && [] + rest == []; }
  }

  /** On a book side these are the first orders of the side. */
  lemma {:induction false} GreedyTakesPrefix(o: Place, s: seq<Order>, quantity: int)
    requires SideOk(o.side.Opposite(), s) && 0 <= quantity
    ensures TradesWithFirst(o, s, GreedyTrades(o, s, quantity))
  {
    if s != [] {
      if !Inside(o, s[0].price) {
        NothingCrosses(o, s, quantity);
      } else {
        assert SideOk(o.side.Opposite(), s[1..]);
        var t := Take(o, s[0], quantity);
        if quantity == t { NothingLeftToTake(o, s[1..]); }
        if quantity == 0 { NothingLeftToTake(o, s); }
        GreedyTakesPrefix(o, s[1..], quantity - t);
        PrependFirst(o, s, t, GreedyTrades(o, s[1..], quantity - t), quantity);
        hide *;
        GreedyUnfold(o, s, quantity);
      }
    }
  }

  /** Trade i is with the i-th order of the side, at its price and inside the limit; all
      but the last use their order up. */
  ghost predicate TradesWithFirst(o: Place, s: seq<Order>, t: seq<Execution>)
  {
    && |t| <= |s|
    && forall i :: 0 <= i < |t| ==>
         && t[i] == ExecutionOf(s[i], t[i].quantity)
         && 0 < t[i].quantity <= s[i].remaining && Inside(o, t[i].price)
         && (i + 1 < |t| ==> t[i].quantity == s[i].remaining)
  }

  lemma StepDraftsTrades(o: Place, ts: nat, maker: Order, qty: int, left: int, s: State)
    ensures var d := StepDrafts(o, ts, maker, qty, left, s);
      && TradesOf(d) == [ExecutionOf(maker, qty)]
      && LegsOf(d) == LegPair(TradeDraft(o, ts, maker, qty, s.seqNo))
  {
    var d := StepDrafts(o, ts, maker, qty, left, s);
    assert d[0] == TradeDraft(o, ts, maker, qty, s.seqNo);
    if |d| == 2 {
      assert d[1..] == [d[1]] && d[1..][1..] == [];
      assert TradesOf(d[1..]) == [] && LegsOf(d[1..]) == [];
    } else {
      assert d[1..] == [];
    }
  }

  lemma TradeLegs(o: Place, ts: nat, m: Matching, tradeSeq: nat)
    requires Ready(o, m) && CanFill(o, m)
    ensures LegPair(TradeDraft(o, ts, Makers(o, m)[0], FillQty(o, m), tradeSeq)) == [MakerLeg(o, m), TakerLeg(o, m)]
  {
    assert Makers(o, m)[0].side == o.side.Opposite();
  }

  lemma StepTrades(o: Place, ts: nat, m: Matching)
    requires Ready(o, m) && CanFill(o, m)
    ensures TradesOf(FillStep(o, ts, m).outs) == TradesOf(m.outs) + [ExecutionOf(Makers(o, m)[0], FillQty(o, m))]
    ensures LegsOf(FillStep(o, ts, m).outs) == LegsOf(m.outs) + [MakerLeg(o, m), TakerLeg(o, m)]
  {
    hide FillStep, FilledState, StepDrafts, TradesOf, LegsOf, LegPair, MakerLeg, TakerLeg, TradeDraft;
    var x, qty := Makers(o, m)[0], FillQty(o, m);
    var s := FilledState(o, m.s, qty);
    var d := StepDrafts(o, ts, x, qty, m.remaining - qty, s);
    StepDraftsTrades(o, ts, x, qty, m.remaining - qty, s);
    TradesConcat(m.outs, d);
    LegsConcat(m.outs, d);
    FillStepShape(o, ts, m);
    TradeLegs(o, ts, m, s.seqNo);
  }

  /** Taking from the best order is the first step of the greedy walk. */
  lemma GreedyStep(o: Place, s: seq<Order>, quantity: int)
    requires s != [] && Positive(s) && 0 < quantity && Inside(o, s[0].price)
    ensures var x, t := s[0], Min(quantity, s[0].remaining);
      && GreedyTrades(o, s, quantity)
           == [ExecutionOf(x, t)] + GreedyTrades(o, MakersAfter(s, t), quantity - t)
      && GreedyRest(o, s, quantity) == GreedyRest(o, MakersAfter(s, t), quantity - t)
  {
    var t := Min(quantity, s[0].remaining);
    if t < s[0].remaining {
      assert MakersAfter(s, t)[1..] == s[1..];
      NothingLeftToTake(o, s[1..]);
      NothingLeftToTake(o, MakersAfter(s, t));
    }
  }

  /** From matching state m to n: greedy trades, greedy rest, and legs that match. */
  ghost predicate Realizes(o: Place, m: Matching, n: Matching)
  {
    && TradesOf(n.outs) == TradesOf(m.outs) + GreedyTrades(o, Makers(o, m), m.remaining)
    && Makers(o, n) == GreedyRest(o, Makers(o, m), m.remaining)
    && (m.legs == LegsOf(m.outs) ==> n.legs == LegsOf(n.outs))
  }

  lemma FillsFirst(o: Place, m: Matching)
    requires CanFill(o, m)
    ensures Makers(o, m) != [] && 0 < m.remaining && Inside(o, Makers(o, m)[0].price)
    ensures FillQty(o, m) == Min(m.remaining, Makers(o, m)[0].remaining)
  {
  }

  lemma SameTail(a: seq<Execution>, b: seq<Execution>, c: seq<Execution>)
    ensures a + b + c == a + (b + c)
  {
  }

  lemma StepRealizes(o: Place, ts: nat, m: Matching, n: Matching)
    requires Ready(o, m) && CanFill(o, m)
    requires Realizes(o, FillStep(o, ts, m), n)
    ensures Realizes(o, m, n)
  {
    hide FillStep, Ready, CanFill, Positive, TradesOf, LegsOf, GreedyTrades, GreedyRest, MakersAfter, StepDrafts,
      FilledState, MakerLeg, TakerLeg, ExecutionOf;
    ReadyPositive(o, m);
    StepTrades(o, ts, m);
    FillsFirst(o, m);
    GreedyStep(o, Makers(o, m), m.remaining);
    FillStepShape(o, ts, m);
    SameTail(TradesOf(m.outs), [ExecutionOf(Makers(o, m)[0], FillQty(o, m))],
             GreedyTrades(o, MakersAfter(Makers(o, m), FillQty(o, m)), m.remaining - FillQty(o, m)));
  }

  lemma StoppedRealizes(o: Place, m: Matching)
    requires Ready(o, m) && !CanFill(o, m)
    ensures Realizes(o, m, m)
  {
    ReadyPositive(o, m);
    if m.remaining == 0 {
      NothingLeftToTake(o, Makers(o, m));
    } else {
      NothingCrosses(o, Makers(o, m), m.remaining);
    }
  }

  /** The nested matching loop, from any point, does what greedy consumption does. */
  lemma {:induction false} MatchIsGreedy(o: Place, ts: nat, m: Matching)
    requires Ready(o, m)
    ensures Realizes(o, m, MatchAll(o, ts, m))
    decreases |Makers(o, m)|, Max(0, m.remaining)
  {
    hide *;
    MatchUnfold(o, ts, m);
    if CanFill(o, m) {
      MatchIsGreedy(o, ts, FillStep(o, ts, m));
      StepRealizes(o, ts, m, MatchAll(o, ts, m));
    } else {
      StoppedRealizes(o, m);
    }
  }

  lemma {:induction false} CrossingDepthNonNegative(o: Place, s: seq<Order>)
    requires Positive(s)
    ensures 0 <= CrossingDepth(o, s)
  {
    if s != [] {
      CrossingDepthNonNegative(o, s[1..]);
    }
  }

  lemma DepthTaken(o: Place, s: seq<Order>, t: int)
    requires s != [] && Positive(s) && 0 < t <= s[0].remaining && Inside(o, s[0].price)
    ensures CrossingDepth(o, MakersAfter(s, t)) == CrossingDepth(o, s) - t
  {
    if t < s[0].remaining {
      assert MakersAfter(s, t)[1..] == s[1..];
    }
  }

  lemma StoppedDepth(o: Place, m: Matching)
    requires Ready(o, m) && !CanFill(o, m)
    ensures Min(m.remaining, CrossingDepth(o, Makers(o, m))) == 0
  {
    ReadyPositive(o, m);
    CrossingDepthNonNegative(o, Makers(o, m));
    if 0 < m.remaining {
      NothingCrosses(o, Makers(o, m), m.remaining);
    }
  }

  lemma StepDepth(o: Place, ts: nat, m: Matching)
    requires Ready(o, m) && CanFill(o, m)
    ensures var n := FillStep(o, ts, m);
      && CrossingDepth(o, Makers(o, n)) == CrossingDepth(o, Makers(o, m)) - FillQty(o, m)
      && n.remaining == m.remaining - FillQty(o, m)
  {
    ReadyPositive(o, m);
    DepthTaken(o, Makers(o, m), FillQty(o, m));
    FillStepShape(o, ts, m);
  }

  lemma MinShift(a: int, b: int, t: int)
    ensures Min(a - t, b - t) == Min(a, b) - t
  {
  }

  /** The loop stops with min(quantity, crossing depth) taken. */
  lemma {:induction false} MatchRemaining(o: Place, ts: nat, m: Matching)
    requires Ready(o, m)
    ensures MatchAll(o, ts, m).remaining == m.remaining - Min(m.remaining, CrossingDepth(o, Makers(o, m)))
    decreases |Makers(o, m)|, Max(0, m.remaining)
  {
    hide *;
    MatchUnfold(o, ts, m);
    if CanFill(o, m) {
      var n := FillStep(o, ts, m);
      MatchRemaining(o, ts, n);
      StepDepth(o, ts, m);
      MinShift(m.remaining, CrossingDepth(o, Makers(o, m)), FillQty(o, m));
    } else {
      StoppedDepth(o, m);
    }
  }

  /** Trades, remainder and book that greedy consumption of `makers` leaves. */
  ghost predicate FilledGreedily(o: Place, makers: seq<Order>, m: Matching)
  {
    var trades := TradesOf(m.outs);
    && trades == GreedyTrades(o, makers, o.quantity)
    && TotalQuantity(trades) + m.remaining == o.quantity
    && TotalQuantity(trades) == Min(o.quantity, CrossingDepth(o, makers))
    && TradesWithFirst(o, makers, trades)
    && Makers(o, m) == GreedyRest(o, makers, o.quantity)
    && m.legs == LegsOf(m.outs)
  }

  /** An accepted order: its trades are the greedy ones, they total
      min(quantity, crossing depth), and what is not traded is what remains. */
  lemma OrderFillsGreedily(s: State, o: Place, ts: nat)
    requires Wf(s) && Refusal(s, o).None? && 0 < o.quantity && 0 < o.margin && 0 <= o.price
    ensures FilledGreedily(o, s.Orders(o.side.Opposite()), MatchAll(o, ts, StartMatching(s, o)))
  {
    var m0 := StartMatching(s, o);
    StartMatchingReady(s, o);
    ReadyPositive(o, m0);
    FromTheStart(o, ts, m0);
  }

  lemma FromTheStart(o: Place, ts: nat, m: Matching)
    requires Ready(o, m) && m.remaining == o.quantity && m.outs == [] && m.legs == []
    ensures FilledGreedily(o, Makers(o, m), MatchAll(o, ts, m))
  {
    var makers := Makers(o, m);
    var trades := GreedyTrades(o, makers, o.quantity);
    ReadyPositive(o, m);
    assert TradesOf([]) == [] && LegsOf([]) == [];
    assert [] + trades == trades;
    MatchIsGreedy(o, ts, m);
    MatchRemaining(o, ts, m);
    hide MatchAll, Ready, GreedyTrades, GreedyRest, CrossingDepth, TotalQuantity, Inside, SideOk, TradesOf, LegsOf,
      TradesWithFirst;
    GreedyTotal(o, makers, o.quantity);
    GreedyTakesPrefix(o, makers, o.quantity);
  }
}
