/** The engine: the single entry point and its handlers over the mutable state. Every
    method is proved to compute what EngineSpec says. */
module Engines {
  import opened Money
  import opened States
  import opened JsMaps
  import opened Levels
  import opened Invariants
  import opened EngineStates
  import opened EngineSpec
  import opened Snapshots
  import Spec = EngineSpec
  import Accounts
  import Book
  import Risk
  import ZeroSum

  /** Opposite-side levels while the best one is being consumed: it may have run empty. */
  ghost predicate Consuming(side: Side, levels: seq<PriceLevel>, price: int)
  {
    && LevelsSorted(side, levels) && levels != [] && levels[0].price == price
    && NoEmptyLevel(levels[1..])
  }

  /** The iterations left: fewer with every fill. */
  function Rank(o: Place, m: Matching): nat
  {
    |Makers(o, m)| + (if 0 < m.remaining then 1 else 0)
  }

  lemma RankFalls(o: Place, ts: nat, m: Matching)
    requires Ready(o, m) && CanFill(o, m)
    ensures Rank(o, FillStep(o, ts, m)) < Rank(o, m)
  {
    ReadyPositive(o, m);
    FillStepShape(o, ts, m);
    hide FillStep, Ready;
  }

  lemma FillUserFrame(s: State, t: State, u: string, f: Accounts.Fill)
    requires s.balances == t.balances && s.positions == t.positions
    requires s.market == t.market && s.markPrice == t.markPrice && 0 < f.qty
    ensures FillUser(s, u, f).balances == FillUser(t, u, f).balances
    ensures FillUser(s, u, f).positions == FillUser(t, u, f).positions
  {
    assert AccountOf(s, u) == AccountOf(t, u);
    hide Accounts.ApplyFill;
  }

  /** t is s after a fill against the best opposite order, part by part. */
  ghost predicate Filled(o: Place, s: State, qty: int, t: State)
    requires 0 < o.quantity && 0 < qty && s.Orders(o.side.Opposite()) != []
  {
    var maker := s.Orders(o.side.Opposite())[0];
    var s2 := FillUser(s, maker.userId, MakerFill(maker, qty));
    var s3 := FillUser(s2, o.userId, TakerFill(o, maker.price, qty));
    t == s.(balances := s3.balances, positions := s3.positions,
            lastTradePrice := maker.price, seqNo := s.seqNo + 1)
          .WithOrders(o.side.Opposite(), MakersAfter(s.Orders(o.side.Opposite()), qty))
  }

  /** The book part, the account part and the counters of a filled state. */
  lemma FilledStateParts(o: Place, s: State, qty: int)
    requires 0 < o.quantity && 0 < qty && s.Orders(o.side.Opposite()) != []
    ensures Filled(o, s, qty, FilledState(o, s, qty))
  {
    var side := o.side.Opposite();
    var maker := s.Orders(side)[0];
    var s1 := s.WithOrders(side, MakersAfter(s.Orders(side), qty));
    var fm, ft := MakerFill(maker, qty), TakerFill(o, maker.price, qty);
    FillUserFrame(s, s1, maker.userId, fm);
    FillUserFrame(FillUser(s, maker.userId, fm), FillUser(s1, maker.userId, fm), o.userId, ft);
    hide MakersAfter, Accounts.ApplyFill, MakerFillMargin, TakerShare;
  }

  lemma MakersAfterPrefix(a: seq<Order>, b: seq<Order>, qty: int)
    requires a != []
    ensures a + b != [] && MakersAfter(a + b, qty) == MakersAfter(a, qty) + b
  {
    assert (a + b)[1..] == a[1..] + b;
    hide MakerFillMargin;
  }

  lemma FlattenHead(levels: seq<PriceLevel>, orders: seq<Order>)
    requires levels != []
    ensures Flatten(levels) == levels[0].orders + Flatten(levels[1..])
    ensures Flatten(levels[0 := levels[0].(orders := orders)]) == orders + Flatten(levels[1..])
  {
    var r := levels[0 := levels[0].(orders := orders)];
    assert r[1..] == levels[1..];
  }

  lemma ConsumeFirst(levels: seq<PriceLevel>, qty: int)
    requires levels != [] && levels[0].orders != []
    ensures var r := levels[0 := levels[0].(orders := MakersAfter(levels[0].orders, qty))];
      && Flatten(levels) != [] && Flatten(levels)[0] == levels[0].orders[0]
      && Flatten(r) == MakersAfter(Flatten(levels), qty)
  {
    FlattenHead(levels, MakersAfter(levels[0].orders, qty));
    MakersAfterPrefix(levels[0].orders, Flatten(levels[1..]), qty);
    hide Flatten, MakersAfter;
  }

  lemma ConsumeShape(side: Side, levels: seq<PriceLevel>, qty: int)
    requires levels != [] && levels[0].orders != [] && Consuming(side, levels, levels[0].price)
    ensures Consuming(side, levels[0 := levels[0].(orders := MakersAfter(levels[0].orders, qty))], levels[0].price)
  {
    var b := MakersAfter(levels[0].orders, qty);
    assert levels[0].orders[0] in levels[0].orders;
    forall x | x in b ensures x.price == levels[0].price {
      if x in levels[0].orders[1..] { assert x in levels[0].orders; }
    }
    var r := levels[0 := levels[0].(orders := b)];
    assert r[1..] == levels[1..];
  }

  lemma ConsumingSorted(side: Side, levels: seq<PriceLevel>, price: int)
    requires Consuming(side, levels, price)
    ensures LevelsSorted(side, levels) && levels != [] && levels[0].price == price
  {
  }

  /** The loop condition and the crossing test together are CanFill. */
  lemma WhenToStop(o: Place, ts: nat, m: Matching, m0: Matching, levels: seq<PriceLevel>)
    requires Continues(o, ts, m, m0) && Makers(o, m) == Flatten(levels) && LevelsOk(o.side.Opposite(), levels)
    ensures 0 < m.remaining && levels != [] && Crosses(o, levels[0].price) <==> CanFill(o, m)
    ensures !CanFill(o, m) ==> m == MatchAll(o, ts, m0)
  {
    if levels != [] {
      FirstOrder(levels);
      assert levels[0].orders[0] in levels[0].orders;
    }
  }

  lemma EnterLevel(o: Place, m: Matching, levels: seq<PriceLevel>)
    requires CanFill(o, m) && levels != [] && LevelsOk(o.side.Opposite(), levels)
    ensures Consuming(o.side.Opposite(), levels, levels[0].price) && levels[0].orders != [] && 0 < m.remaining
  {
  }

  lemma LeaveLevel(side: Side, levels: seq<PriceLevel>, price: int)
    requires Consuming(side, levels, price)
    ensures LevelsOk(side, RemoveEmpty(levels, price)) && Flatten(RemoveEmpty(levels, price)) == Flatten(levels)
  {
    assert forall i :: 0 < i < |levels| ==> levels[i] == levels[1..][i - 1];
    RemoveEmptyRefines(side, levels, price);
  }

  /** From m on, the loop ends where it ends from m0. */
  ghost predicate Continues(o: Place, ts: nat, m: Matching, m0: Matching)
  {
    Ready(o, m) && Ready(o, m0) && MatchAll(o, ts, m) == MatchAll(o, ts, m0)
  }

  lemma BestPriceOf(o: Place, m: Matching, levels: seq<PriceLevel>, price: int)
    requires Consuming(o.side.Opposite(), levels, price) && levels[0].orders != [] && Makers(o, m) == Flatten(levels)
    ensures Makers(o, m) != [] && Makers(o, m)[0].price == price
  {
    ConsumedFirst(o.side.Opposite(), levels, price);
  }

  lemma ContinuesReady(o: Place, ts: nat, m: Matching, m0: Matching)
    requires Continues(o, ts, m, m0)
    ensures Ready(o, m) && Ready(o, m0)
  {
  }

  lemma ContinuesTransitive(o: Place, ts: nat, m: Matching, n: Matching, m0: Matching)
    requires Continues(o, ts, m, n) && Continues(o, ts, n, m0)
    ensures Continues(o, ts, m, m0)
  {
  }

  lemma StartsHere(o: Place, ts: nat, m: Matching)
    requires Ready(o, m)
    ensures Continues(o, ts, m, m)
  {
  }

  lemma MatchStep(o: Place, ts: nat, m: Matching, m0: Matching)
    requires Continues(o, ts, m, m0) && CanFill(o, m)
    ensures 0 < o.quantity && Positive(Makers(o, m)) && Continues(o, ts, FillStep(o, ts, m), m0)
    ensures Rank(o, FillStep(o, ts, m)) < Rank(o, m)
  {
    hide FillStep, Ready, CanFill, Rank;
    ContinuesReady(o, ts, m, m0);
    ReadyPositive(o, m);
    FillStepReady(o, ts, m);
    RankFalls(o, ts, m);
  }

  /** First price of a consumed book. */
  lemma ConsumedFirst(side: Side, levels: seq<PriceLevel>, price: int)
    requires Consuming(side, levels, price)
    ensures levels[0].orders != [] ==> Flatten(levels) != [] && Flatten(levels)[0].price == price
    ensures levels[0].orders == [] && Flatten(levels) != [] ==> Flatten(levels)[0].price != price
  {
    OtherPrices(side, levels, 0);
    SplitAt(levels, 0);
    assert levels[..0] == [];
    if levels[0].orders != [] {
      assert levels[0].orders[0] in levels[0].orders;
    } else if Flatten(levels[1..]) != [] {
      assert Flatten(levels[1..])[0] in Flatten(levels[1..]);
    }
  }

  /** The loop leaves the level exactly when the order is filled or the level is empty. */
  lemma LeavesLevel(side: Side, after: seq<PriceLevel>, price: int, left: int)
    requires Consuming(side, after, price)
    ensures LevelDone(left, Flatten(after), price) <==> !(0 < left && after[0].orders != [])
    ensures after[0].orders != [] ==> Flatten(after) != [] && Flatten(after)[0].price == price
  {
    ConsumedFirst(side, after, price);
    hide Consuming, Flatten;
  }

  /** The price of the level being consumed crosses as long as anything remains. */
  lemma StillCrosses(o: Place, m: Matching, n: Matching)
    requires CanFill(o, m) && 0 < n.remaining && Makers(o, n) != []
    requires Makers(o, n)[0].price == Makers(o, m)[0].price
    ensures CanFill(o, n)
  {
  }

  lemma FillStepParts(o: Place, ts: nat, m: Matching)
    requires 0 < o.quantity && CanFill(o, m) && Positive(Makers(o, m))
    ensures var n, maker, qty := FillStep(o, ts, m), Makers(o, m)[0], FillQty(o, m);
      n == Matching(FilledState(o, m.s, qty), m.remaining - qty, m.filledNotional + RoundDiv(maker.price * qty, UNIT),
                    Touch(m.makerTouched, maker, qty), AddOnce(m.affected, maker.userId),
                    m.outs + StepDrafts(o, ts, maker, qty, m.remaining - qty, FilledState(o, m.s, qty)), n.legs)
  {
    hide FilledState, StepDrafts, RoundDiv, Touch, MakerLeg, TakerLeg;
  }

  lemma DraftsSplit(o: Place, ts: nat, outs: seq<Draft>, maker: Order, qty: int, left: int, t: State)
    ensures outs + StepDrafts(o, ts, maker, qty, left, t)
         == outs + [TradeDraft(o, ts, maker, qty, t.seqNo)]
            + (if LevelDone(left, t.Orders(o.side.Opposite()), maker.price)
               then [DeltaDraft(t, o.side.Opposite(), maker.price)] else [])
  {
    hide TradeDraft, DeltaDraft, LevelDone;
  }

  /** After a fill either the loop goes on in this level, or what is missing is its depth
      update. */
  lemma {:induction false} AfterFill(o: Place, ts: nat, m: Matching, after: seq<PriceLevel>, price: int)
    requires Ready(o, m) && CanFill(o, m) && Makers(o, m)[0].price == price
    requires Consuming(o.side.Opposite(), after, price)
    requires FilledState(o, m.s, FillQty(o, m)).Orders(o.side.Opposite()) == Flatten(after)
    ensures var n, maker, qty, side := FillStep(o, ts, m), Makers(o, m)[0], FillQty(o, m), o.side.Opposite();
      var t := FilledState(o, m.s, qty);
      var more := 0 < m.remaining - qty && after[0].orders != [];
      && n == Matching(t, m.remaining - qty, m.filledNotional + RoundDiv(maker.price * qty, UNIT),
                       Touch(m.makerTouched, maker, qty), AddOnce(m.affected, maker.userId),
                       m.outs + [TradeDraft(o, ts, maker, qty, t.seqNo)]
                         + (if more then [] else [DeltaDraft(t, side, price)]), n.legs)
      && (more ==> CanFill(o, n))
  {
    ReadyPositive(o, m);
    FillStepParts(o, ts, m);
    hide Ready, FilledState, Flatten, RoundDiv, Touch, MakerLeg, TakerLeg, TradeDraft, DeltaDraft, FillStep,
      LevelDone, CanFill, FillQty, StepDrafts, Positive, AddOnce;
    var side, left := o.side.Opposite(), m.remaining - FillQty(o, m);
    LeavesLevel(side, after, price, left);
    ConsumingSorted(side, after, price);
    hide Consuming;
    DraftsSplit(o, ts, m.outs, Makers(o, m)[0], FillQty(o, m), left, FilledState(o, m.s, FillQty(o, m)));
    if 0 < left && after[0].orders != [] {
      StillCrosses(o, m, FillStep(o, ts, m));
    }
  }

  class Engine {
    const state: EngineState

    constructor (market: MarketConfig)
      ensures fresh(state) && state.Valid() && state.Model() == CreateState(market)
    {
      state := new EngineState(market);
    }

    constructor FromSnapshot(x: Serialized)
      requires Deserialize(x).Some? && Wf(Deserialize(x).value)
      ensures fresh(state) && state.Valid() && state.Model() == Deserialize(x).value
    {
      state := new EngineState.Restore(x);
    }

    method Snapshot() returns (x: Serialized)
      requires state.Valid()
      ensures Wf(state.Model()) && x == Serialize(state.Model())
    {
      x := Serialize(state.Model());
    }

    method NextSeq() returns (n: nat)
      modifies state`seqNo
      ensures n == state.seqNo == old(state.seqNo) + 1
    {
      state.seqNo := state.seqNo + 1;
      n := state.seqNo;
    }

    // ----- Drafts -----

    method BalanceDraftOf(u: string) returns (d: Draft)
      requires u in state.balances.at
      modifies state`balances
      ensures d == BalanceDraft(state.Model(), u) && state.balances == old(state.balances)
    {
      state.EnsureBalance(u);
      d := BalanceUpdated(u, state.balances.at[u]);
    }

    method PositionDraftOf(u: string) returns (d: Draft)
      modifies state`positions
      ensures state.positions == EnsurePosition(old(state.Model()), u).positions
      ensures d == PositionDraft(state.Model(), u)
    {
      state.EnsurePosition(u);
      d := PositionUpdated(u, state.positions.at[u]);
    }

    method DeltaDraftOf(side: Side, price: int) returns (d: Draft)
      requires LevelsSorted(side, state.LevelsFor(side))
      ensures d == DeltaDraft(state.Model(), side, price)
    {
      LevelDepthIsDepth(side, state.LevelsFor(side), price);
      d := BookDelta(side, price, LevelDepth(state.LevelsFor(side), price));
    }

    // ----- Matching -----

    /** One fill against the head of the best level. */
    method FillBest(o: Place, ts: nat, remaining: int, ghost m: Matching) returns (maker: Order, fillQty: int, trade: Draft)
      requires Ready(o, m) && CanFill(o, m) && state.Model() == m.s && remaining == m.remaining
      requires state.LevelsFor(o.side.Opposite()) != [] && state.LevelsFor(o.side.Opposite())[0].orders != []
      modifies state
      ensures maker == Makers(o, m)[0] && fillQty == FillQty(o, m)
      ensures state.Model() == FilledState(o, m.s, fillQty)
      ensures trade == TradeDraft(o, ts, maker, fillQty, state.seqNo)
      ensures var levels := old(state.LevelsFor(o.side.Opposite()));
        state.LevelsFor(o.side.Opposite()) == levels[0 := levels[0].(orders := MakersAfter(levels[0].orders, fillQty))]
      ensures state.LevelsFor(o.side) == old(state.LevelsFor(o.side))
    {
      hide Ready, Flatten, FillUser, FilledState, RoundDiv, CanFill, MakersAfter, MakerFillMargin;
      var side := o.side.Opposite();
      ghost var levels := state.LevelsFor(side);
      BestLevelFacts(o, m, levels);
      maker := state.LevelsFor(side)[0].orders[0];
      fillQty := Min(remaining, maker.remaining);
      var makerFillMargin := ReduceHead(side, fillQty);
      var takerFillMargin := RoundDiv(fillQty * o.margin, o.quantity);
      ghost var s1 := state.Model();
      TradeLegs(o, maker, fillQty, makerFillMargin, takerFillMargin);
      TwoFillsFrame(s1, m.s, maker.userId, MakerFill(maker, fillQty), o.userId, TakerFill(o, maker.price, fillQty));
      state.lastTradePrice := maker.price;
      var tradeSeq := NextSeq();
      trade := TradeExecuted(tradeSeq, maker.orderId, o.orderId, maker.userId, o.userId, maker.price, fillQty, o.side, ts);
      ShiftExhausted(side, levels, fillQty);
    }

    /** Take a quantity and its margin share off the first order of the best level. */
    method ReduceHead(side: Side, fillQty: int) returns (makerFillMargin: int)
      requires state.LevelsFor(side) != [] && state.LevelsFor(side)[0].orders != []
      modifies state`bids, state`asks
      ensures var old0 := old(state.LevelsFor(side));
        && makerFillMargin == MakerFillMargin(old0[0].orders[0], fillQty)
        && state.LevelsFor(side)
             == old0[0 := old0[0].(orders := [MakerAfter(old0[0].orders[0], fillQty)] + old0[0].orders[1..])]
      ensures state.LevelsFor(side.Opposite()) == old(state.LevelsFor(side.Opposite()))
    {
      var maker := state.LevelsFor(side)[0].orders[0];
      makerFillMargin := if 0 < maker.remaining then RoundDiv(fillQty * maker.margin, maker.remaining) else 0;
      maker := maker.(remaining := maker.remaining - fillQty);
      maker := maker.(margin := maker.margin - makerFillMargin);
      SetHead(side, [maker] + state.LevelsFor(side)[0].orders[1..]);
    }

    /** Drop the first order of the best level if nothing of it is left. */
    method ShiftExhausted(side: Side, ghost levels: seq<PriceLevel>, ghost fillQty: int)
      requires levels != [] && levels[0].orders != []
      requires state.LevelsFor(side)
        == levels[0 := levels[0].(orders := [MakerAfter(levels[0].orders[0], fillQty)] + levels[0].orders[1..])]
      modifies state`bids, state`asks
      ensures state.LevelsFor(side) == levels[0 := levels[0].(orders := MakersAfter(levels[0].orders, fillQty))]
      ensures state.LevelsFor(side.Opposite()) == old(state.LevelsFor(side.Opposite()))
    {
      HeadQueue(levels, fillQty);
      if state.LevelsFor(side)[0].orders[0].remaining <= 0 {
        SetHead(side, state.LevelsFor(side)[0].orders[1..]);
      }
    }

    static lemma HeadQueue(levels: seq<PriceLevel>, qty: int)
      requires levels != [] && levels[0].orders != []
      ensures var left, tail := MakerAfter(levels[0].orders[0], qty), levels[0].orders[1..];
        var l := levels[0 := levels[0].(orders := [left] + tail)];
        && l[0].orders[1..] == tail
        && l[0 := l[0].(orders := tail)] == levels[0 := levels[0].(orders := tail)]
        && MakersAfter(levels[0].orders, qty) == if left.remaining <= 0 then tail else [left] + tail
    {
      hide MakerAfter;
    }

    static lemma TwoFillsFrame(s: State, t: State, u: string, f: Accounts.Fill, v: string, g: Accounts.Fill)
      requires s.balances == t.balances && s.positions == t.positions
      requires s.market == t.market && s.markPrice == t.markPrice && 0 < f.qty && 0 < g.qty
      ensures var x, y := FillUser(FillUser(s, u, f), v, g), FillUser(FillUser(t, u, f), v, g);
        x.balances == y.balances && x.positions == y.positions
    {
      FillUserFrame(s, t, u, f);
      FillUserFields(s, u, f);
      FillUserFields(t, u, f);
      hide FillUser;
      FillUserFrame(FillUser(s, u, f), FillUser(t, u, f), v, g);
    }

    /** Both legs of a fill: the maker's, then the taker's. */
    method TradeLegs(o: Place, maker: Order, fillQty: int, makerFillMargin: int, takerFillMargin: int)
      requires 0 < o.quantity && 0 < fillQty
      requires maker.userId in state.balances.at && o.userId in state.balances.at
      requires makerFillMargin == MakerFillMargin(maker, fillQty) && takerFillMargin == TakerShare(o, fillQty)
      modifies state`balances, state`positions
      ensures var s2 := FillUser(old(state.Model()), maker.userId, MakerFill(maker, fillQty));
        var s3 := FillUser(s2, o.userId, TakerFill(o, maker.price, fillQty));
        state.balances == s3.balances && state.positions == s3.positions
    {
      ghost var s := state.Model();
      ghost var fm, ft := MakerFill(maker, fillQty), TakerFill(o, maker.price, fillQty);
      state.ApplyFill(maker.userId, maker.side, maker.price, fillQty, makerFillMargin, maker.leverage);
      FillUserKeeps(s, maker.userId, fm, o.userId);
      FillUserFields(s, maker.userId, fm);
      ghost var between := state.Model();
      hide FillUser, Flatten, RoundDiv;
      state.ApplyFill(o.userId, o.side, maker.price, fillQty, takerFillMargin, o.leverage);
      FillUserFrame(between, FillUser(s, maker.userId, fm), o.userId, ft);
    }

    /** Assign the queue of the best level. */
    method SetHead(side: Side, orders: seq<Order>)
      requires state.LevelsFor(side) != []
      modifies state`bids, state`asks
      ensures state.LevelsFor(side) == old(state.LevelsFor(side))[0 := old(state.LevelsFor(side))[0].(orders := orders)]
      ensures state.LevelsFor(side.Opposite()) == old(state.LevelsFor(side.Opposite()))
    {
      var levels := state.LevelsFor(side);
      levels := levels[0 := levels[0].(orders := orders)];
      if side.Bid? { state.bids := levels; } else { state.asks := levels; }
    }

    /** What the best level says about the next fill. */
    static lemma BestLevelFacts(o: Place, m: Matching, levels: seq<PriceLevel>)
      requires Ready(o, m) && CanFill(o, m) && levels != [] && levels[0].orders != []
      requires Makers(o, m) == Flatten(levels)
      ensures var maker, qty := levels[0].orders[0], FillQty(o, m);
        && maker == Makers(o, m)[0] && qty == Min(m.remaining, maker.remaining) && 0 < qty && 0 < o.quantity
        && maker.userId in m.s.balances.at && o.userId in m.s.balances.at
        && Flatten(levels[0 := levels[0].(orders := MakersAfter(levels[0].orders, qty))])
             == MakersAfter(Makers(o, m), qty)
        && Filled(o, m.s, qty, FilledState(o, m.s, qty))
    {
      MakerAndTakerKnown(o, m);
      ConsumeFirst(levels, FillQty(o, m));
      hide Ready, Flatten;
      FilledStateParts(o, m.s, FillQty(o, m));
    }

    static lemma MakerAndTakerKnown(o: Place, m: Matching)
      requires Ready(o, m) && CanFill(o, m)
      ensures 0 < o.quantity && 0 < FillQty(o, m)
      ensures Makers(o, m)[0].userId in m.s.balances.at && o.userId in m.s.balances.at
    {
    }

    static lemma FillUserKeeps(s: State, u: string, f: Accounts.Fill, v: string)
      requires 0 < f.qty && v in s.balances.at
      ensures v in FillUser(s, u, f).balances.at
    {
    }

    static lemma FillUserFields(s: State, u: string, f: Accounts.Fill)
      requires 0 < f.qty
      ensures var t := FillUser(s, u, f);
        t == s.(balances := t.balances, positions := t.positions)
    {
    }

    // ----- The matching loops -----

    /** The level loop is between two fills: the locals are those of m. */
    ghost predicate Open(m: Matching, remaining: int, filledNotional: int, makerTouched: JsMap<Touched>,
                         affected: seq<string>, outs: seq<Draft>)
      reads state
    {
      m == Matching(state.Model(), remaining, filledNotional, makerTouched, affected, outs, m.legs)
    }

    /** The level loop is done: only the depth update of the level is still missing. */
    ghost predicate Closing(m: Matching, remaining: int, filledNotional: int, makerTouched: JsMap<Touched>,
                            affected: seq<string>, outs: seq<Draft>, side: Side, price: int)
      reads state
    {
      m == Matching(state.Model(), remaining, filledNotional, makerTouched, affected,
                    outs + [DeltaDraft(state.Model(), side, price)], m.legs)
    }

    /** Either more of this level can be filled, or the level is done. */
    ghost predicate InLevel(o: Place, m: Matching, remaining: int, filledNotional: int, makerTouched: JsMap<Touched>,
                            affected: seq<string>, outs: seq<Draft>, price: int)
      reads state
    {
      var side := o.side.Opposite();
      && state.LevelsFor(side) != [] && Consuming(side, state.LevelsFor(side), price)
      && LevelsOk(o.side, state.LevelsFor(o.side))
      && (if 0 < remaining && state.LevelsFor(side)[0].orders != []
          then Open(m, remaining, filledNotional, makerTouched, affected, outs) && CanFill(o, m)
          else Closing(m, remaining, filledNotional, makerTouched, affected, outs, side, price))
    }

    /** Match an order against the opposite side. */
    method MatchOrder(o: Place, ts: nat, ghost m0: Matching)
      returns (remaining: int, filledNotional: int, makerTouched: JsMap<Touched>, affected: seq<string>,
               outs: seq<Draft>, ghost m: Matching)
      requires Ready(o, m0) && m0 == Matching(state.Model(), o.quantity, 0, Empty(), [o.userId], [], [])
      requires state.Shaped()
      modifies state
      ensures m == MatchAll(o, ts, m0)
      ensures Open(m, remaining, filledNotional, makerTouched, affected, outs)
      ensures state.Shaped()
    {
      hide Ready, Continues, MatchAll, FillStep, CanFill, Flatten, LevelsOk, Consuming, Crosses, Touch, RoundDiv;
      remaining, filledNotional, makerTouched, affected, outs := o.quantity, 0, Empty(), [o.userId], [];
      m := m0;
      StartsHere(o, ts, m0);
      var side := o.side.Opposite();
      while 0 < remaining && state.LevelsFor(side) != []
        invariant Continues(o, ts, m, m0)
        invariant Open(m, remaining, filledNotional, makerTouched, affected, outs)
        invariant state.Shaped()
        decreases Rank(o, m)
      {
        var price := state.LevelsFor(side)[0].price;
        WhenToStop(o, ts, m, m0, state.LevelsFor(side));
        if !Crosses(o, price) { break; }
        ContinuesReady(o, ts, m, m0);
        ghost var m1 := m;
        remaining, filledNotional, makerTouched, affected, outs, m :=
          ConsumeLevel(o, ts, price, remaining, filledNotional, makerTouched, affected, outs, m);
        ContinuesTransitive(o, ts, m, m1, m0);
        ConsumingSorted(side, state.LevelsFor(side), price);
        var d := DeltaDraftOf(side, price);
        outs := outs + [d];
        LeaveLevel(side, state.LevelsFor(side), price);
        state.RemoveEmptyLevel(side, price);
      }
      WhenToStop(o, ts, m, m0, state.LevelsFor(side));
    }

    /** The inner loop: trade with the orders of the best level in turn. */
    method ConsumeLevel(o: Place, ts: nat, price: int, remaining0: int, filledNotional0: int,
                        makerTouched0: JsMap<Touched>, affected0: seq<string>, outs0: seq<Draft>, ghost m0: Matching)
      returns (remaining: int, filledNotional: int, makerTouched: JsMap<Touched>, affected: seq<string>,
               outs: seq<Draft>, ghost m: Matching)
      requires Ready(o, m0) && CanFill(o, m0)
      requires Open(m0, remaining0, filledNotional0, makerTouched0, affected0, outs0)
      requires state.Shaped() && state.LevelsFor(o.side.Opposite()) != []
      requires state.LevelsFor(o.side.Opposite())[0].price == price
      modifies state
      ensures Continues(o, ts, m, m0) && Rank(o, m) < Rank(o, m0)
      ensures var side := o.side.Opposite();
        && Consuming(side, state.LevelsFor(side), price) && LevelsOk(o.side, state.LevelsFor(o.side))
        && Closing(m, remaining, filledNotional, makerTouched, affected, outs, side, price)
    {
      hide Ready, Continues, MatchAll, FillStep, CanFill, Flatten, LevelsOk, Consuming, Crosses, Touch, RoundDiv;
      remaining, filledNotional, makerTouched, affected, outs :=
        remaining0, filledNotional0, makerTouched0, affected0, outs0;
      m := m0;
      StartsHere(o, ts, m0);
      var side := o.side.Opposite();
      EnterLevel(o, m, state.LevelsFor(side));
      while 0 < remaining && state.LevelsFor(side)[0].orders != []
        invariant Continues(o, ts, m, m0)
        invariant InLevel(o, m, remaining, filledNotional, makerTouched, affected, outs, price)
        invariant (m == m0 && 0 < remaining && state.LevelsFor(side)[0].orders != []) || Rank(o, m) < Rank(o, m0)
        decreases Rank(o, m)
      {
        ghost var levels := state.LevelsFor(side);
        BestPriceOf(o, m, levels, price);
        ContinuesReady(o, ts, m, m0);
        MatchStep(o, ts, m, m0);
        var maker, fillQty, trade := FillBest(o, ts, remaining, m);
        ConsumingSorted(side, levels, price);
        ConsumeShape(side, levels, fillQty);
        AfterFill(o, ts, m, state.LevelsFor(side), price);
        makerTouched := Touch(makerTouched, maker, fillQty);
        remaining := remaining - fillQty;
        filledNotional := filledNotional + RoundDiv(maker.price * fillQty, UNIT);
        affected := AddOnce(affected, maker.userId);
        outs := outs + [trade];
        m := FillStep(o, ts, m);
      }
    }

    // ----- Placing an order -----

    /** The checks before the lock. */
    method CheckOrder(o: Place) returns (refusal: Option<Reason>)
      requires state.Valid()
      ensures var s := state.Model();
        Refusal(s, o) == if refusal.Some? then refusal
                         else if !Accounts.CanLock(s.BalanceOf(o.userId), o.margin) then Some(InsufficientFreeBalance)
                         else None
      ensures refusal.None? ==> o.userId in state.balances.at
    {
      BestPriceIs(o.side.Opposite(), state.LevelsFor(o.side.Opposite()));
      hide Wf, Flatten, LevelsOk, Risk.RequiredMargin;
      if o.userId !in state.balances.at { return Some(UserDoesNotExist); }
      if o.leverage <= 0 || state.market.maxLeverage < o.leverage {
        return Some(LeverageOutOfRange(state.market.maxLeverage));
      }
      if o.margin < state.market.minMargin { return Some(MarginBelowMinimum(state.market.minMargin)); }
      var refPrice := o.price;
      if o.orderType.MARKET? {
        var best := state.BestPrice(o.side.Opposite());
        refPrice := if best.Some? then best.value else state.markPrice;
      }
      if 0 < refPrice {
        var minReq := Risk.RequiredMargin(refPrice, o.quantity, o.leverage);
        if Risk.Short(o.margin + Accounts.TOLERANCE, minReq) { return Some(MarginInsufficient); }
      }
      return None;
    }

    static lemma BestPriceIs(side: Side, levels: seq<PriceLevel>)
      requires LevelsOk(side, levels)
      ensures levels == [] <==> Flatten(levels) == []
      ensures levels != [] ==> Flatten(levels)[0].price == levels[0].price
    {
      if levels != [] {
        FirstOrder(levels);
        assert levels[0].orders[0] in levels[0].orders;
      }
    }

    method OnPlaceOrder(o: Place, ts: nat, commandId: Option<string>) returns (outs: seq<Draft>)
      requires state.Valid() && 0 < o.quantity && 0 < o.margin && 0 <= o.price && 0 < o.leverage
      modifies state
      ensures Wf(old(state.Model())) && state.Shaped()
      ensures var r := Spec.OnPlaceOrder(old(state.Model()), o, ts, commandId);
        state.Model() == r.0 && outs == r.1
    {
      ghost var s := state.Model();
      WfPositive(s);
      hide Wf, Flatten, LevelsOk, Refusal, StartMatching, Executed, OrderDrafts, EnsureAll, Positive, Rejection;
      var refusal := CheckOrder(o);
      if refusal.Some? {
        return Rejection(commandId, o.orderId, o.userId, refusal.value);
      }
      var ok := state.Lock(o.userId, o.margin);
      if !ok {
        return Rejection(commandId, o.orderId, o.userId, InsufficientFreeBalance);
      }
      StartIs(s, o);
      outs := ExecuteOrder(o, ts, commandId, s);
    }

    /** An order whose margin is locked: match it, handle the remainder, report. */
    method ExecuteOrder(o: Place, ts: nat, commandId: Option<string>, ghost s: State) returns (outs: seq<Draft>)
      requires Wf(s) && Refusal(s, o).None? && 0 < o.quantity && 0 < o.margin && 0 <= o.price
      requires state.Shaped() && state.Model() == StartMatching(s, o).s
      modifies state
      ensures Positive(s.Orders(o.side.Opposite())) && state.Shaped()
      ensures (state.Model(), outs) == Spec.OnPlaceOrder(s, o, ts, commandId)
    {
      hide Wf, Flatten, LevelsOk, Refusal, Ready, MatchAll, HandleRemainder, ReportAll, EnsureAll,
        MakersAccepted, Executed, Positive, Accounts.Lock;
      ghost var m0 := StartMatching(s, o);
      StartMatchingReady(s, o);
      WfPositive(s);
      var remaining, filledNotional, makerTouched, affected;
      ghost var m;
      remaining, filledNotional, makerTouched, affected, outs, m := MatchOrder(o, ts, m0);
      MatchedOk(s, o, ts);
      ghost var h := HandleRemainder(o, ts, m);
      outs := HandleRest(o, ts, remaining, outs, m);
      outs := ReportMakers(makerTouched, outs);
      outs := ReportUsers(affected, outs);
      outs := outs + [TakerAccepted(o, remaining, filledNotional)];
      DraftsAssemble(s, o, ts, commandId, h);
    }

    static lemma StartIs(s: State, o: Place)
      ensures StartMatching(s, o) ==
        Matching(s.(balances := s.balances.Set(o.userId, Accounts.Lock(s.BalanceOf(o.userId), o.margin))),
                 o.quantity, 0, Empty(), [o.userId], [], [])
    {
    }

    /** After matching and the remainder: who is affected has a balance. */
    static lemma MatchedOk(s: State, o: Place, ts: nat)
      requires Wf(s) && Refusal(s, o).None? && 0 < o.quantity && 0 < o.margin && 0 <= o.price
      ensures Ready(o, StartMatching(s, o)) && Positive(Makers(o, StartMatching(s, o)))
      ensures var m := MatchAll(o, ts, StartMatching(s, o));
        && Ready(o, m) && m.makerTouched.Ok()
        && HandleRemainder(o, ts, m) == Executed(s, o, ts)
        && HandleRemainder(o, ts, m).remaining == m.remaining
        && HandleRemainder(o, ts, m).filledNotional == m.filledNotional
        && HandleRemainder(o, ts, m).affected == m.affected
        && (forall u :: u in m.affected ==> u in HandleRemainder(o, ts, m).s.balances.at)
    {
      hide MatchAll, StartMatching, Refusal, Wf, Ready, CanFill, Positive;
      StartMatchingReady(s, o);
      ReadyPositive(o, StartMatching(s, o));
      WfPositive(s);
      MatchAllReady(o, ts, StartMatching(s, o));
      MatchedFrame(s, o, ts);
    }

    static lemma DraftsAssemble(s: State, o: Place, ts: nat, c: Option<string>, h: Matching)
      requires Wf(s) && Refusal(s, o).None? && 0 < o.quantity && 0 < o.margin && 0 <= o.price
      requires h == Executed(s, o, ts)
      ensures h.makerTouched.Ok()
      ensures Spec.OnPlaceOrder(s, o, ts, c) ==
        (EnsureAll(h.s, h.affected),
         h.outs + MakersAccepted(h.makerTouched.keys, h.makerTouched) + ReportAll(h.s, h.affected)
           + [TakerAccepted(o, h.remaining, h.filledNotional)])
    {
      hide Executed, MakersAccepted, ReportAll, EnsureAll, Refusal, Wf;
    }

    /** Rest what is left of a limit order, release what is left of a market order. */
    method HandleRest(o: Place, ts: nat, remaining: int, outs0: seq<Draft>, ghost m: Matching) returns (outs: seq<Draft>)
      requires Ready(o, m) && state.Shaped()
      requires m.s == state.Model() && m.remaining == remaining && m.outs == outs0
      modifies state
      ensures 0 < o.quantity && state.Shaped()
      ensures state.Model() == HandleRemainder(o, ts, m).s && outs == HandleRemainder(o, ts, m).outs
    {
      outs := outs0;
      assert o.userId in state.balances.at && 0 < o.quantity;
      hide Ready, Flatten, LevelsOk, RoundDiv, Book.Insert, Book.DepthAt, Accounts.Release;
      if o.orderType.LIMIT? && 0 < remaining {
        var d := RestRemainder(o, ts, remaining, m);
        outs := outs + [d];
      } else if o.orderType.MARKET? && 0 < remaining {
        var _ := state.Release(o.userId, RoundDiv(remaining * o.margin, o.quantity));
      }
    }

    /** Put the rest of a limit order on the book. */
    method RestRemainder(o: Place, ts: nat, remaining: int, ghost m: Matching) returns (d: Draft)
      requires 0 < o.quantity && 0 < remaining && state.Shaped()
      requires m.s == state.Model() && m.remaining == remaining
      modifies state
      ensures state.Shaped()
      ensures var s := m.s.(seqNo := m.s.seqNo + 1);
        var s1 := s.WithOrders(o.side, Book.Insert(s.Orders(o.side), RestingOrder(o, ts, m)));
        state.Model() == s1 && d == DeltaDraft(s1, o.side, o.price)
    {
      hide Flatten, LevelsOk, RoundDiv, Book.Insert, Book.DepthAt;
      var restMargin := RoundDiv(remaining * o.margin, o.quantity);
      var n := NextSeq();
      var resting := Order(o.orderId, o.userId, o.side, o.price, remaining, remaining, o.leverage, restMargin, n, ts);
      assert resting == RestingOrder(o, ts, m);
      state.InsertResting(resting);
      OkIsSorted(o.side, state.LevelsFor(o.side));
      d := DeltaDraftOf(o.side, o.price);
    }

    static lemma OkIsSorted(side: Side, levels: seq<PriceLevel>)
      requires LevelsOk(side, levels)
      ensures LevelsSorted(side, levels)
    {
    }

    /** One order.accepted for every touched maker, in the order they were touched. */
    method ReportMakers(makerTouched: JsMap<Touched>, outs0: seq<Draft>) returns (outs: seq<Draft>)
      requires makerTouched.Ok()
      ensures outs == outs0 + MakersAccepted(makerTouched.keys, makerTouched)
    {
      outs := outs0;
      var keys := makerTouched.keys;
      for i := 0 to |keys|
        invariant outs + MakersAccepted(keys[i..], makerTouched) == outs0 + MakersAccepted(keys, makerTouched)
      {
        var mt := makerTouched.at[keys[i]];
        var remainingMaker := mt.restingQty - mt.filled;
        assert keys[i..][1..] == keys[i + 1..] && keys[i..][0] == keys[i];
        outs := outs + [OrderAccepted(keys[i], mt.userId, if 0 < remainingMaker then PARTIAL else FILLED,
                                      mt.filled, Max(0, remainingMaker), 0)];
      }
      assert keys[|keys|..] == [];
    }

    static lemma TwoMore(outs: seq<Draft>, b: Draft, p: Draft, rest: seq<Draft>)
      ensures outs + ([b, p] + rest) == outs + [b] + [p] + rest
    {
    }

    static lemma ReportNext(s: State, users: seq<string>)
      requires users != []
      ensures var t := EnsurePosition(s, users[0]);
        && EnsureAll(s, users) == EnsureAll(t, users[1..])
        && ReportAll(s, users) == [BalanceDraft(t, users[0]), PositionDraft(t, users[0])] + ReportAll(t, users[1..])
    {
    }

    /** Balance and position of every affected user. */
    method ReportUsers(affected: seq<string>, outs0: seq<Draft>) returns (outs: seq<Draft>)
      requires forall u :: u in affected ==> u in state.balances.at
      modifies state`balances, state`positions
      ensures state.Model() == EnsureAll(old(state.Model()), affected)
      ensures outs == outs0 + ReportAll(old(state.Model()), affected)
    {
      outs := outs0;
      ghost var s := state.Model();
      for i := 0 to |affected|
        invariant forall u :: u in affected ==> u in state.balances.at
        invariant EnsureAll(state.Model(), affected[i..]) == EnsureAll(s, affected)
        invariant outs + ReportAll(state.Model(), affected[i..]) == outs0 + ReportAll(s, affected)
        invariant state.balances == s.balances
        invariant state.Model() == s.(positions := state.positions)
      {
        hide Flatten, EnsureAll, ReportAll, BalanceDraft, PositionDraft;
        ghost var t, rest := state.Model(), affected[i + 1..];
        assert affected[i..][0] == affected[i] && affected[i..][1..] == rest;
        ReportNext(t, affected[i..]);
        var b := BalanceDraftOf(affected[i]);
        var p := PositionDraftOf(affected[i]);
        assert state.Model() == EnsurePosition(t, affected[i]);
        TwoMore(outs, b, p, ReportAll(state.Model(), rest));
        outs := outs + [b];
        outs := outs + [p];
      }
      assert affected[|affected|..] == [];
    }

    // ----- The other handlers -----

    method OnUserCreated(u: string, openingBalance: int) returns (outs: seq<Draft>)
      modifies state`balances
      ensures var r := Spec.OnUserCreated(old(state.Model()), u, openingBalance);
        state.Model() == r.0 && outs == r.1
    {
      ghost var s := state.Model();
      state.EnsureBalance(u);
      assert state.Model() == EnsureBalance(s, u);
      if 0 < openingBalance { state.Credit(u, openingBalance); }
      var d := BalanceDraftOf(u);
      outs := [d];
    }

    method OnBalanceDeposited(u: string, amount: int) returns (outs: seq<Draft>)
      modifies state`balances
      ensures var r := Spec.OnBalanceDeposited(old(state.Model()), u, amount);
        state.Model() == r.0 && outs == r.1
    {
      ghost var s := state.Model();
      state.EnsureBalance(u);
      assert state.Model() == EnsureBalance(s, u);
      state.Credit(u, amount);
      var d := BalanceDraftOf(u);
      outs := [d];
    }

    method OnCancelOrder(u: string, orderId: string, side: Side, price: int, commandId: Option<string>)
      returns (outs: seq<Draft>)
      requires state.Valid()
      modifies state
      ensures state.Shaped()
      ensures var r := Spec.OnCancelOrder(old(state.Model()), u, orderId, side, price, commandId);
        state.Model() == r.0 && outs == r.1
    {
      ghost var s := state.Model();
      CancelOwner(s, side, price, orderId);
      hide Wf, Flatten, LevelsOk, LevelsSorted, Book.Find, Book.Remove, Rejection,
        Accounts.Release, Accounts.Moved, Book.DepthAt;
      var target := FindTarget(orderId, side, price);
      if target.None? || target.value.userId != u {
        return Rejection(commandId, orderId, u, OrderNotFound);
      }
      var released := CancelFound(u, orderId, side, price);
      OkIsSorted(side, state.LevelsFor(side));
      var delta := DeltaDraftOf(side, price);
      var balance := BalanceDraftOf(u);
      outs := [delta, balance, OrderCancelled(orderId, u, released)];
    }

    /** The resting order with this price and id, looked up through its level. */
    method FindTarget(orderId: string, side: Side, price: int) returns (target: Option<Order>)
      requires state.Shaped()
      ensures var orders := state.Model().Orders(side);
        var i := Book.Find(orders, price, orderId);
        target == if i == |orders| then None else Some(orders[i])
    {
      CancelRefines(side, state.LevelsFor(side), price, orderId);
      hide Flatten, LevelsOk, LevelsSorted, Book.Find, Book.Remove, LevelIndex, OrderIndex, RemoveEmpty;
      var levels := state.LevelsFor(side);
      var i := LevelIndex(levels, price);
      if i == |levels| { return None; }
      var k := OrderIndex(levels[i].orders, orderId);
      if k == |levels[i].orders| { return None; }
      return Some(levels[i].orders[k]);
    }

    /** Take a user's own order off the book and release its margin. */
    method CancelFound(u: string, orderId: string, side: Side, price: int) returns (released: int)
      requires state.Shaped() && u in state.balances.at
      requires Book.Find(state.Model().Orders(side), price, orderId) < |state.Model().Orders(side)|
      modifies state
      ensures state.Shaped()
      ensures var s := old(state.Model());
        var i := Book.Find(s.Orders(side), price, orderId);
        var margin := s.Orders(side)[i].margin;
        && state.Model() == PutBalance(s.WithOrders(side, Book.Remove(s.Orders(side), i)), u,
                                       Accounts.Release(s.BalanceOf(u), margin))
        && released == Accounts.Moved(s.BalanceOf(u), margin)
    {
      hide Flatten, LevelsOk, Book.Find, Book.Remove, Accounts.Release, Accounts.Moved;
      var removed := state.CancelResting(side, price, orderId);
      released := state.Release(u, removed.value.margin);
    }

    static lemma CancelOwner(s: State, side: Side, price: int, orderId: string)
      requires Wf(s)
      ensures var i := Book.Find(s.Orders(side), price, orderId);
        i < |s.Orders(side)| ==> s.Orders(side)[i].userId in s.balances.at
    {
    }

    method OnIndexPrice(price: int, observerSeq: int) returns (outs: seq<Draft>)
      requires state.Valid()
      modifies state
      ensures state.Shaped()
      ensures var r := Spec.OnIndexPrice(old(state.Model()), price, observerSeq);
        state.Model() == r.0 && outs == r.1
    {
      if observerSeq <= state.lastObserverSeq { return []; }
      ghost var s0 := state.Model().(lastObserverSeq := observerSeq);
      SameAccountsOk(state.Model(), s0);
      MarkToMarketOk(s0, price);
      ghost var s1 := MarkToMarket(s0, price);
      UsersPositionsOk(s0);
      SweepFields(s1, price);
      DoomedKnown(s1, price);
      hide Wf, Flatten, LevelsOk, UsersOk, AccountsOk, Sweep, DoomedAmong, MarkToMarket, LiquidationDrafts;
      TickIs(state.Model(), price, observerSeq);
      MarkFields(s0, price);
      state.lastObserverSeq := observerSeq;
      state.MarkToMarket(price);
      assert state.Model() == s1;
      var liquidations := state.LiquidationSweep(price);
      ghost var t := Sweep(s1, price);
      assert state.Model() == t;
      ghost var users := DoomedAmong(s1, s1.positions.keys, price);
      outs := ReportLiquidations(liquidations, s1, users, price);
    }

    static lemma TickIs(s: State, price: int, observerSeq: int)
      requires s.lastObserverSeq < observerSeq
      ensures var s1 := MarkToMarket(s.(lastObserverSeq := observerSeq), price);
        Spec.OnIndexPrice(s, price, observerSeq)
          == (Sweep(s1, price), LiquidationDrafts(s1, Sweep(s1, price), DoomedAmong(s1, s1.positions.keys, price), price))
    {
      hide Sweep, MarkToMarket, LiquidationDrafts, DoomedAmong;
    }

    static lemma MarkFields(s: State, mark: int)
      ensures MarkToMarket(s, mark) == s.(markPrice := mark, positions := MarkToMarket(s, mark).positions)
    {
    }

    static lemma UsersPositionsOk(s: State)
      requires UsersOk(s)
      ensures s.positions.Ok()
    {
    }

    static lemma SweepFields(s: State, mark: int)
      ensures Sweep(s, mark) == s.(balances := Sweep(s, mark).balances, positions := Sweep(s, mark).positions)
    {
    }

    static lemma DoomedKnown(s: State, mark: int)
      requires UsersOk(s)
      ensures forall u :: u in DoomedAmong(s, s.positions.keys, mark) ==>
        u in Sweep(s, mark).balances.at && u in Sweep(s, mark).positions.at
    {
      ZeroSum.DoomedAmongFacts(s, s.positions.keys, mark);
    }

    /** Three drafts for every liquidation. */
    method ReportLiquidations(liquidations: seq<Liquidation>, ghost s: State, ghost users: seq<string>, mark: int)
      returns (outs: seq<Draft>)
      requires liquidations == LiquidationsOf(s, users, mark)
      requires forall u :: u in users ==> u in state.balances.at && u in state.positions.at
      modifies state`balances, state`positions
      ensures state.Model() == old(state.Model())
      ensures outs == LiquidationDrafts(s, old(state.Model()), users, mark)
    {
      outs := [];
      ghost var t := state.Model();
      LiquidationsAt(s, users, mark);
      assert users[..0] == [];
      for i := 0 to |liquidations|
        invariant state.balances == t.balances && state.positions == t.positions && state.Model() == t
        invariant outs == LiquidationDrafts(s, t, users[..i], mark)
      {
        hide Flatten;
        var liq := liquidations[i];
        assert liq.userId == users[i] && users[i] in users;
        assert users[..i + 1] == users[..i] + [users[i]];
        LiquidationDraftsLast(s, t, users[..i], users[i], mark);
        outs := outs + [PositionLiquidated(liq.userId, liq.markPrice, liq.realizedPnl)];
        var b := BalanceDraftOf(liq.userId);
        outs := outs + [b];
        var p := PositionDraftOf(liq.userId);
        outs := outs + [p];
      }
      assert users[..|users|] == users;
    }

    static function LiquidationOf(s: State, u: string, mark: int): Liquidation
    {
      Liquidation(u, mark, Accounts.Pnl(s.PositionOf(u).entryPrice, mark, s.PositionOf(u).size))
    }

    static lemma {:induction false} LiquidationsAt(s: State, users: seq<string>, mark: int)
      ensures |LiquidationsOf(s, users, mark)| == |users|
      ensures forall i :: 0 <= i < |users| ==> LiquidationsOf(s, users, mark)[i] == LiquidationOf(s, users[i], mark)
    {
      if users != [] {
        LiquidationsAt(s, users[..|users| - 1], mark);
      }
    }

    static lemma {:induction false} LiquidationDraftsLast(s: State, t: State, users: seq<string>, u: string, mark: int)
      ensures LiquidationDrafts(s, t, users + [u], mark) == LiquidationDrafts(s, t, users, mark)
        + [PositionLiquidated(u, mark, Accounts.Pnl(s.PositionOf(u).entryPrice, mark, s.PositionOf(u).size)),
           BalanceDraft(t, u), PositionDraft(t, u)]
    {
      if users == [] {
        assert users + [u] == [u] && [u][1..] == [];
      } else {
        assert (users + [u])[1..] == users[1..] + [u];
        LiquidationDraftsLast(s, t, users[1..], u, mark);
      }
    }

    // ----- The entry point -----

    method Dispatch(e: Event) returns (drafts: seq<Draft>)
      requires state.Valid() && e.Admitted()
      modifies state
      ensures Wf(old(state.Model())) && state.Shaped()
      ensures var r := Spec.Dispatch(old(state.Model()), e); state.Model() == r.0 && drafts == r.1
    {
      hide Wf, Flatten, LevelsOk, Spec.OnPlaceOrder, Spec.OnCancelOrder, Spec.OnIndexPrice, Spec.OnUserCreated,
        Spec.OnBalanceDeposited;
      match e.payload {
        case UserCreated(u, openingBalance) => drafts := OnUserCreated(u, openingBalance);
        case BalanceDeposited(u, amount) => drafts := OnBalanceDeposited(u, amount);
        case PlaceOrder(o) => drafts := OnPlaceOrder(o, e.ts, e.commandId);
        case CancelOrder(u, orderId, side, price) => drafts := OnCancelOrder(u, orderId, side, price, e.commandId);
        case IndexPriceUpdated(price, observerSeq) => drafts := OnIndexPrice(price, observerSeq);
      }
    }

    /** Remember a command id, forgetting the oldest beyond the limit. */
    method RecordCommand(commandId: string)
      modifies state`appliedCommandIds
      ensures state.appliedCommandIds == Newest(old(state.appliedCommandIds) + [commandId])
    {
      state.appliedCommandIds := state.appliedCommandIds + [commandId];
      var n := |state.appliedCommandIds|;
      if MAX_APPLIED_COMMANDS < n {
        state.appliedCommandIds := state.appliedCommandIds[n - MAX_APPLIED_COMMANDS..];
      }
    }

    /** Number the drafts on from the sequence counter. */
    method StampDrafts(e: Event, drafts: seq<Draft>) returns (outputs: seq<Output>)
      modifies state`seqNo
      ensures state.seqNo == old(state.seqNo) + |drafts|
      ensures outputs == StampAll(e, old(state.seqNo) + 1, drafts)
    {
      outputs := [];
      for i := 0 to |drafts|
        invariant state.seqNo == old(state.seqNo) + i
        invariant |outputs| == i
        invariant forall j :: 0 <= j < i ==> outputs[j] == Stamp(e, old(state.seqNo) + 1 + j, drafts[j])
      {
        var n := NextSeq();
        outputs := outputs + [Output(n, e.ts, e.correlationId, e.eventId, e.commandId, drafts[i])];
      }
    }

    /** Dispatch and record an event that is not a repetition. */
    method ApplyFresh(e: Event) returns (drafts: seq<Draft>)
      requires state.Valid() && e.Admitted()
      modifies state
      ensures Wf(old(state.Model())) && state.Shaped()
      ensures var r := Spec.Dispatch(old(state.Model()), e);
        var t := Spec.RecordCommand(r.0, e);
        drafts == r.1 && state.Model() == t.(appliedCount := t.appliedCount + 1)
    {
      hide Wf, Flatten, LevelsOk, Spec.Dispatch, Newest;
      drafts := Dispatch(e);
      if e.commandId.Some? { RecordCommand(e.commandId.value); }
      state.appliedCount := state.appliedCount + 1;
    }

    /** The single deterministic state transition: it computes Step and Outputs. */
    method Process(e: Event, streamId: StreamId) returns (outputs: seq<Output>)
      requires state.Valid() && e.Admitted()
      modifies state
      ensures Wf(old(state.Model())) && state.Valid()
      ensures state.Model() == Step(old(state.Model()), e, streamId)
      ensures outputs == Outputs(old(state.Model()), e)
    {
      hide Wf, Flatten, LevelsOk, Spec.Dispatch, Newest, Spec.RecordCommand;
      ghost var s := state.Model();
      StepWf(s, e, streamId);
      RecordSeq(s, e);
      var drafts := [];
      if !(e.commandId.Some? && e.commandId.value in state.appliedCommandIds) {
        drafts := ApplyFresh(e);
      }
      state.lastInputId := streamId;
      outputs := StampDrafts(e, drafts);
      assert state.Model() == Step(s, e, streamId);
    }

    /** Recording a command does not touch the counter the outputs are numbered from. */
    static lemma RecordSeq(s: State, e: Event)
      requires Wf(s) && e.Admitted()
      ensures Positive(s.bids) && Positive(s.asks)
      ensures Spec.RecordCommand(Spec.Dispatch(s, e).0, e).seqNo == Spec.Dispatch(s, e).0.seqNo
    {
      assert Positive(s.bids) && Positive(s.asks);
      hide Spec.Dispatch, Wf;
    }
  }
}
