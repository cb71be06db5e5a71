/** Serialization, and why restoring from a snapshot is harmless: the handlers depend on
    the contents of the maps, never on their iteration order. */
module Snapshots {
  import opened Money
  import opened States
  import opened JsMaps
  import opened Accounts
  import opened EngineSpec
  import opened Invariants
  import opened Book
  import Risk
  import ZeroSum

  /** Equal up to the iteration order of the maps and the stream position and count of
      the last input. */
  ghost predicate Alike(s: State, t: State)
  {
    && s.balances.at == t.balances.at && s.positions.at == t.positions.at
    && s.(balances := t.balances, positions := t.positions, lastInputId := t.lastInputId,
          appliedCount := t.appliedCount) == t
  }

  lemma AlikeTransitive(s: State, t: State, r: State)
    requires Alike(s, t) && Alike(t, r)
    ensures Alike(s, r) && Alike(t, s)
  {
  }

  // ----- Every handler respects Alike -----

  lemma FillUserAlike(s: State, t: State, u: string, f: Fill)
    requires Alike(s, t) && 0 < f.qty
    ensures Alike(FillUser(s, u, f), FillUser(t, u, f))
  {
    assert AccountOf(s, u) == AccountOf(t, u);
    hide ApplyFill;
  }

  /** Matching states with alike engine states and the same locals. */
  ghost predicate AlikeMatching(m: Matching, n: Matching)
  {
    Alike(m.s, n.s) && m.(s := n.s) == n
  }

  lemma FilledStateAlike(o: Place, s: State, t: State, qty: int)
    requires Alike(s, t) && 0 < o.quantity && 0 < qty && s.Orders(o.side.Opposite()) != []
    ensures Alike(FilledState(o, s, qty), FilledState(o, t, qty))
  {
    var side := o.side.Opposite();
    var maker := s.Orders(side)[0];
    var s1 := s.WithOrders(side, MakersAfter(s.Orders(side), qty));
    var t1 := t.WithOrders(side, MakersAfter(t.Orders(side), qty));
    hide MakersAfter, FillUser, MakerFill, TakerFill;
    assert Alike(s1, t1);
    var fm, ft := MakerFill(maker, qty), TakerFill(o, maker.price, qty);
    assert fm.qty == qty && ft.qty == qty by { FillsQty(o, maker, qty); }
    FillUserAlike(s1, t1, maker.userId, fm);
    FillUserAlike(FillUser(s1, maker.userId, fm), FillUser(t1, maker.userId, fm), o.userId, ft);
  }

  lemma FillsQty(o: Place, maker: Order, qty: int)
    requires 0 < o.quantity
    ensures MakerFill(maker, qty).qty == qty && TakerFill(o, maker.price, qty).qty == qty
  {
  }

  lemma FillStepAlike(o: Place, ts: nat, m: Matching, n: Matching)
    requires AlikeMatching(m, n) && 0 < o.quantity && CanFill(o, m) && Positive(Makers(o, m))
    ensures AlikeMatching(FillStep(o, ts, m), FillStep(o, ts, n))
  {
    FilledStateAlike(o, m.s, n.s, FillQty(o, m));
    hide FilledState, Touch, RoundDiv;
  }

  lemma AlikeCanFill(o: Place, m: Matching, n: Matching)
    requires AlikeMatching(m, n) && CanFill(o, m) && Positive(Makers(o, m))
    ensures CanFill(o, n) && Positive(Makers(o, n))
  {
  }

  lemma UnfoldFill(o: Place, ts: nat, n: Matching)
    requires 0 < o.quantity && Positive(Makers(o, n)) && CanFill(o, n)
    ensures MatchAll(o, ts, n) == MatchAll(o, ts, FillStep(o, ts, n))
  {
    hide FillStep, CanFill;
  }

  lemma StoppedAlike(o: Place, ts: nat, m: Matching, n: Matching)
    requires 0 < o.quantity && AlikeMatching(m, n) && !CanFill(o, m) && Positive(Makers(o, m))
    ensures Positive(Makers(o, n)) && MatchAll(o, ts, n) == n
  {
  }

  lemma {:induction false} MatchAllAlike(o: Place, ts: nat, m: Matching, n: Matching)
    requires AlikeMatching(m, n) && Ready(o, m)
    ensures Positive(Makers(o, n)) && AlikeMatching(MatchAll(o, ts, m), MatchAll(o, ts, n))
    decreases |Makers(o, m)|, Max(0, m.remaining)
  {
    hide *;
    MatchUnfold(o, ts, m);
    if CanFill(o, m) {
      AlikeCanFill(o, m, n);
      FillStepAlike(o, ts, m, n);
      UnfoldFill(o, ts, n);
      MatchAllAlike(o, ts, FillStep(o, ts, m), FillStep(o, ts, n));
    } else {
      StoppedAlike(o, ts, m, n);
    }
  }

  lemma RemainderAlike(o: Place, ts: nat, m: Matching, n: Matching)
    requires AlikeMatching(m, n) && 0 < o.quantity
    ensures AlikeMatching(HandleRemainder(o, ts, m), HandleRemainder(o, ts, n))
  {
    hide TakerShare;
  }

  lemma ExecutedAlike(s: State, t: State, o: Place, ts: nat)
    requires Wf(s) && Wf(t) && Alike(s, t) && Refusal(s, o).None?
    requires 0 < o.quantity && 0 < o.margin && 0 <= o.price
    ensures AlikeMatching(Executed(s, o, ts), Executed(t, o, ts))
  {
    StartMatchingReady(s, o);
    assert AlikeMatching(StartMatching(s, o), StartMatching(t, o));
    MatchAllAlike(o, ts, StartMatching(s, o), StartMatching(t, o));
    hide StartMatching, MatchAll, HandleRemainder, Ready, AlikeMatching;
    RemainderAlike(o, ts, MatchAll(o, ts, StartMatching(s, o)), MatchAll(o, ts, StartMatching(t, o)));
  }

  lemma {:induction false} ReportsAlike(s: State, t: State, users: seq<string>)
    requires Alike(s, t)
    ensures Alike(EnsureAll(s, users), EnsureAll(t, users)) && ReportAll(s, users) == ReportAll(t, users)
    decreases |users|
  {
    if users != [] {
      ReportsAlike(EnsurePosition(s, users[0]), EnsurePosition(t, users[0]), users[1..]);
    }
  }

  lemma OrderDraftsAlike(o: Place, m: Matching, n: Matching)
    requires AlikeMatching(m, n) && m.makerTouched.Ok() && n.makerTouched.Ok()
    ensures Alike(EnsureAll(m.s, m.affected), EnsureAll(n.s, n.affected)) && OrderDrafts(o, m) == OrderDrafts(o, n)
  {
    ReportsAlike(m.s, n.s, m.affected);
  }

  lemma RefusalAlike(s: State, t: State, o: Place)
    requires Alike(s, t) && 0 < o.leverage
    ensures Refusal(s, o) == Refusal(t, o)
  {
    hide Risk.RequiredMargin;
  }

  lemma PlaceAlike(s: State, t: State, o: Place, ts: nat, c: Option<string>)
    requires Wf(s) && Wf(t) && Alike(s, t) && 0 < o.quantity && 0 < o.margin && 0 <= o.price && 0 < o.leverage
    ensures Alike(OnPlaceOrder(s, o, ts, c).0, OnPlaceOrder(t, o, ts, c).0)
    ensures OnPlaceOrder(s, o, ts, c).1 == OnPlaceOrder(t, o, ts, c).1
  {
    WfPositive(s);
    WfPositive(t);
    hide Executed, Refusal, Wf, Positive, AlikeMatching, OrderDrafts, EnsureAll, Alike;
    RefusalAlike(s, t, o);
    if Refusal(s, o).None? {
      ExecutedAlike(s, t, o, ts);
      OrderDraftsAlike(o, Executed(s, o, ts), Executed(t, o, ts));
    }
  }

  lemma SameDoomed(s: State, t: State, mark: int, u: string)
    requires s.positions.at == t.positions.at
    ensures Doomed(s, u, mark) <==> Doomed(t, u, mark)
  {
  }

  // ----- Liquidation events, and the order they come in -----

  /** Repetition-free lists of the same elements are permutations of each other. */
  lemma SameElementsSameMultiset(a: seq<string>, b: seq<string>)
    requires NoDuplicates(a) && NoDuplicates(b) && forall x :: x in a <==> x in b
    ensures multiset(a) == multiset(b)
  {
    forall x ensures multiset(a)[x] == multiset(b)[x] {
      OccursOnce(a, x);
      OccursOnce(b, x);
    }
  }

  lemma {:induction false} OccursOnce(a: seq<string>, x: string)
    requires NoDuplicates(a)
    ensures multiset(a)[x] == if x in a then 1 else 0
  {
    if a != [] {
      OccursOnce(a[1..], x);
      assert a == [a[0]] + a[1..];
      assert a[0] !in a[1..];
    }
  }

  lemma {:induction false} LiquidationsConcat(s: State, t: State, a: seq<string>, b: seq<string>, mark: int)
    ensures LiquidationDrafts(s, t, a + b, mark) == LiquidationDrafts(s, t, a, mark) + LiquidationDrafts(s, t, b, mark)
  {
    if a == [] {
      assert a + b == b;
    } else {
      assert (a + b)[0] == a[0] && (a + b)[1..] == a[1..] + b;
      LiquidationsConcat(s, t, a[1..], b, mark);
    }
  }

  lemma TakeOut(a: seq<string>, head: seq<string>, tail: seq<string>, x: string)
    requires multiset([x] + a) == multiset(head + ([x] + tail))
    ensures multiset(a) == multiset(head + tail)
  {
    assert multiset(head + ([x] + tail)) == multiset(head) + multiset([x] + tail);
    assert multiset([x] + tail) == multiset([x]) + multiset(tail);
    assert multiset([x] + a) == multiset([x]) + multiset(a);
    assert multiset(head + tail) == multiset(head) + multiset(tail);
    forall y ensures multiset(a)[y] == multiset(head + tail)[y] {
      assert multiset([x] + a)[y] == multiset(head + ([x] + tail))[y];
    }
  }

  lemma PutBack(a: seq<Draft>, head: seq<Draft>, tail: seq<Draft>, x: seq<Draft>)
    requires multiset(a) == multiset(head + tail)
    ensures multiset(x + a) == multiset(head + (x + tail))
  {
    assert multiset(head + tail) == multiset(head) + multiset(tail);
    assert multiset(x + a) == multiset(x) + multiset(a);
    assert multiset(head + (x + tail)) == multiset(head) + multiset(x + tail);
    assert multiset(x + tail) == multiset(x) + multiset(tail);
  }

  /** Sweeping the same users in another order permutes the events. */
  lemma {:induction false} LiquidationsPermute(s: State, t: State, a: seq<string>, b: seq<string>, mark: int)
    requires multiset(a) == multiset(b)
    ensures multiset(LiquidationDrafts(s, t, a, mark)) == multiset(LiquidationDrafts(s, t, b, mark))
  {
    if a == [] {
      EmptyMultiset(b);
    } else {
      var x := a[0];
      assert a == [x] + a[1..];
      assert x in multiset(a) && x in b;
      var k :| 0 <= k < |b| && b[k] == x;
      var head, tail := b[..k], b[k + 1..];
      assert b == head + ([x] + tail);
      TakeOut(a[1..], head, tail, x);
      LiquidationsPermute(s, t, a[1..], head + tail, mark);
      LiquidationsConcat(s, t, [x], a[1..], mark);
      LiquidationsConcat(s, t, head, [x] + tail, mark);
      LiquidationsConcat(s, t, [x], tail, mark);
      LiquidationsConcat(s, t, head, tail, mark);
      hide LiquidationDrafts;
      PutBack(LiquidationDrafts(s, t, a[1..], mark), LiquidationDrafts(s, t, head, mark),
              LiquidationDrafts(s, t, tail, mark), LiquidationDrafts(s, t, [x], mark));
    }
  }

  lemma EmptyMultiset(b: seq<string>)
    requires multiset(b) == multiset{}
    ensures b == []
  {
    assert |multiset(b)| == |b|;
  }

  /** The events tell the order of the sweep. */
  lemma {:induction false} LiquidationsTellOrder(s: State, t: State, a: seq<string>, b: seq<string>, mark: int)
    requires LiquidationDrafts(s, t, a, mark) == LiquidationDrafts(s, t, b, mark)
    ensures a == b
  {
    LiquidationCount(s, t, a, mark);
    LiquidationCount(s, t, b, mark);
    if a != [] {
      var x, y := LiquidationDrafts(s, t, a, mark), LiquidationDrafts(s, t, b, mark);
      assert x[0].userId == a[0] && y[0].userId == b[0];
      assert x[3..] == LiquidationDrafts(s, t, a[1..], mark) && y[3..] == LiquidationDrafts(s, t, b[1..], mark);
      LiquidationsTellOrder(s, t, a[1..], b[1..], mark);
      assert a == [a[0]] + a[1..] && b == [b[0]] + b[1..];
    }
  }

  lemma {:induction false} LiquidationCount(s: State, t: State, users: seq<string>, mark: int)
    ensures |LiquidationDrafts(s, t, users, mark)| == 3 * |users|
  {
    if users != [] {
      LiquidationCount(s, t, users[1..], mark);
    }
  }

  lemma {:induction false} LiquidationsAlike(s: State, t: State, s2: State, t2: State, users: seq<string>, mark: int)
    requires Alike(s, t) && Alike(s2, t2)
    ensures LiquidationDrafts(s, s2, users, mark) == LiquidationDrafts(t, t2, users, mark)
  {
    if users != [] {
      LiquidationsAlike(s, t, s2, t2, users[1..], mark);
    }
  }

  /** The users a tick at this mark would close, in the order of the position map. */
  function DoomedInOrder(s: State, mark: int): seq<string>
  {
    DoomedAmong(s, s.positions.keys, mark)
  }

  /** Marking does not change who is doomed. */
  lemma {:induction false} MarkedDoomed(s: State, keys: seq<string>, observerSeq: int, mark: int)
    ensures DoomedAmong(MarkToMarket(s.(lastObserverSeq := observerSeq), mark), keys, mark) == DoomedAmong(s, keys, mark)
  {
    if keys != [] { MarkedDoomed(s, keys[1..], observerSeq, mark); }
  }

  /** A tick's result in terms of the users it closes. */
  lemma TickDrafts(s: State, price: int, observerSeq: int)
    requires s.lastObserverSeq < observerSeq
    ensures var s1 := MarkToMarket(s.(lastObserverSeq := observerSeq), price);
      && OnIndexPrice(s, price, observerSeq).0 == Sweep(s1, price)
      && OnIndexPrice(s, price, observerSeq).1 == LiquidationDrafts(s1, Sweep(s1, price), DoomedInOrder(s, price), price)
  {
    MarkedDoomed(s, s.positions.keys, observerSeq, price);
  }

  /** The sweep visits positions in map order, yet its effect does not depend on it. The
      liquidation events are the same up to their order, and come in the same order
      exactly if the doomed users are stored in the same order. */
  lemma TickAlike(s: State, t: State, price: int, observerSeq: int)
    requires UsersOk(s) && UsersOk(t) && Alike(s, t)
    ensures var x, y := OnIndexPrice(s, price, observerSeq), OnIndexPrice(t, price, observerSeq);
      && Alike(x.0, y.0)
      && multiset(x.1) == multiset(y.1)
      && (x.1 == y.1 <==> observerSeq <= s.lastObserverSeq || DoomedInOrder(s, price) == DoomedInOrder(t, price))
  {
    if s.lastObserverSeq < observerSeq {
      var s1 := MarkToMarket(s.(lastObserverSeq := observerSeq), price);
      var t1 := MarkToMarket(t.(lastObserverSeq := observerSeq), price);
      MarkAlike(s, t, observerSeq, price);
      SweepAlike(s1, t1, price);
      DoomedSame(s, t, price);
      TickDrafts(s, price, observerSeq);
      TickDrafts(t, price, observerSeq);
      hide OnIndexPrice, UsersOk, Alike, MarkToMarket, Sweep, DoomedInOrder;
      var a, b := DoomedInOrder(s, price), DoomedInOrder(t, price);
      LiquidationsAlike(s1, t1, Sweep(s1, price), Sweep(t1, price), b, price);
      LiquidationsPermute(s1, Sweep(s1, price), a, b, price);
      if LiquidationDrafts(s1, Sweep(s1, price), a, price) == LiquidationDrafts(s1, Sweep(s1, price), b, price) {
        LiquidationsTellOrder(s1, Sweep(s1, price), a, b, price);
      }
    }
  }

  lemma MarkAlike(s: State, t: State, observerSeq: int, price: int)
    requires UsersOk(s) && UsersOk(t) && Alike(s, t)
    ensures var s1 := MarkToMarket(s.(lastObserverSeq := observerSeq), price);
      var t1 := MarkToMarket(t.(lastObserverSeq := observerSeq), price);
      Alike(s1, t1) && UsersOk(s1) && UsersOk(t1)
  {
  }

  lemma SweepAlike(s: State, t: State, mark: int)
    requires Alike(s, t)
    ensures Alike(Sweep(s, mark), Sweep(t, mark))
  {
    forall u ensures Doomed(s, u, mark) <==> Doomed(t, u, mark) && AccountOf(s, u) == AccountOf(t, u) {}
    assert Sweep(s, mark).balances.at == Sweep(t, mark).balances.at;
    assert Sweep(s, mark).positions.at == Sweep(t, mark).positions.at;
  }

  lemma DoomedSame(s: State, t: State, mark: int)
    requires UsersOk(s) && UsersOk(t) && Alike(s, t)
    ensures multiset(DoomedInOrder(s, mark)) == multiset(DoomedInOrder(t, mark))
  {
    var a, b := DoomedInOrder(s, mark), DoomedInOrder(t, mark);
    ZeroSum.DoomedAmongFacts(s, s.positions.keys, mark);
    ZeroSum.DoomedAmongFacts(t, t.positions.keys, mark);
    forall u ensures u in a <==> u in b { SameDoomed(s, t, mark, u); }
    SameElementsSameMultiset(a, b);
  }

  /** Alike states handle an event alike and draft the same events: for a tick up to the
      order of liquidations, for anything else in the same order. */
  lemma DispatchAlike(s: State, t: State, e: Event)
    requires Wf(s) && Wf(t) && Alike(s, t) && e.Admitted()
    ensures Alike(Dispatch(s, e).0, Dispatch(t, e).0)
    ensures multiset(Dispatch(s, e).1) == multiset(Dispatch(t, e).1)
    ensures Dispatch(s, e).1 == Dispatch(t, e).1 <==> SameTickOrder(s, t, e)
  {
    hide *;
    if !e.payload.IndexPriceUpdated? { NoTick(s, t, e); }
    WfPositive(s);
    WfPositive(t);
    match e.payload
    case PlaceOrder(_) => PlacedAlike(s, t, e);
    case IndexPriceUpdated(_, _) => TickedAlike(s, t, e);
    case CancelOrder(u, orderId, side, price) =>
      CancelIs(s, e); CancelIs(t, e); CancelAlike(s, t, u, orderId, side, price, e.commandId);
    case UserCreated(u, amount) => CreateIs(s, e); CreateIs(t, e); CreditAlike(s, t, u, amount);
    case BalanceDeposited(u, amount) => DepositIs(s, e); DepositIs(t, e); CreditAlike(s, t, u, amount);
  }

  lemma NoTick(s: State, t: State, e: Event)
    requires !e.payload.IndexPriceUpdated?
    ensures SameTickOrder(s, t, e)
  {
  }

  lemma PlacedAlike(s: State, t: State, e: Event)
    requires Wf(s) && Wf(t) && Alike(s, t) && e.Admitted() && e.payload.PlaceOrder?
    ensures Positive(s.bids) && Positive(s.asks) && Positive(t.bids) && Positive(t.asks)
    ensures Alike(Dispatch(s, e).0, Dispatch(t, e).0) && Dispatch(s, e).1 == Dispatch(t, e).1 && SameTickOrder(s, t, e)
  {
    hide Wf, Positive, Alike, Dispatch, OnPlaceOrder;
    WfPositive(s);
    WfPositive(t);
    PlaceIs(s, e);
    PlaceIs(t, e);
    PlaceAlike(s, t, e.payload.order, e.ts, e.commandId);
  }

  lemma TickedAlike(s: State, t: State, e: Event)
    requires Wf(s) && Wf(t) && Alike(s, t) && e.Admitted() && e.payload.IndexPriceUpdated?
    ensures Positive(s.bids) && Positive(s.asks) && Positive(t.bids) && Positive(t.asks)
    ensures Alike(Dispatch(s, e).0, Dispatch(t, e).0)
    ensures multiset(Dispatch(s, e).1) == multiset(Dispatch(t, e).1)
    ensures Dispatch(s, e).1 == Dispatch(t, e).1 <==> SameTickOrder(s, t, e)
  {
    WfPositive(s);
    WfPositive(t);
    assert UsersOk(s) && UsersOk(t);
    TickIs(s, e);
    TickIs(t, e);
    hide Wf, Positive, Alike, UsersOk, OnIndexPrice, DoomedInOrder, Dispatch;
    TickAlike(s, t, e.payload.price, e.payload.observerSeq);
  }

  /** Not a tick, a stale one, or one that closes its users in the same order. */
  predicate SameTickOrder(s: State, t: State, e: Event)
  {
    e.payload.IndexPriceUpdated? ==>
      e.payload.observerSeq <= s.lastObserverSeq || DoomedInOrder(s, e.payload.price) == DoomedInOrder(t, e.payload.price)
  }

  lemma SameLength<T>(a: seq<T>, b: seq<T>)
    requires multiset(a) == multiset(b)
    ensures |a| == |b|
  {
    assert |multiset(a)| == |a| && |multiset(b)| == |b|;
  }

  lemma CancelAlike(s: State, t: State, u: string, orderId: string, side: Side, price: int, c: Option<string>)
    requires Alike(s, t)
    ensures var x, y := OnCancelOrder(s, u, orderId, side, price, c), OnCancelOrder(t, u, orderId, side, price, c);
      Alike(x.0, y.0) && x.1 == y.1
  {
    hide Find, Remove, Release;
  }

  lemma CreditAlike(s: State, t: State, u: string, amount: int)
    requires Alike(s, t)
    ensures var x, y := OnUserCreated(s, u, amount), OnUserCreated(t, u, amount); Alike(x.0, y.0) && x.1 == y.1
    ensures var x, y := OnBalanceDeposited(s, u, amount), OnBalanceDeposited(t, u, amount);
      Alike(x.0, y.0) && x.1 == y.1
  {
  }

  /** An event takes alike states to alike states, whatever the stream positions. */
  lemma StepAlike(s: State, t: State, e: Event, i: StreamId, j: StreamId)
    requires Wf(s) && Wf(t) && Alike(s, t) && e.Admitted()
    ensures Alike(Step(s, e, i), Step(t, e, j))
    ensures Step(s, e, i).appliedCount - s.appliedCount == Step(t, e, j).appliedCount - t.appliedCount
  {
    if !AlreadyApplied(s, e) {
      DispatchAlike(s, t, e);
      SameLength(Dispatch(s, e).1, Dispatch(t, e).1);
      DispatchBookkeeping(s, e);
      DispatchBookkeeping(t, e);
      hide Dispatch, Wf;
    }
  }

  // ----- Serialization -----

  const STATE_VERSION := 1

  /** Map entries as a list, and the rest of the state as it is. */
  datatype Serialized = Serialized(
    version: int, market: MarketConfig, markPrice: int, lastTradePrice: int,
    balances: seq<(string, Balance)>, positions: seq<(string, Position)>,
    bids: seq<Order>, asks: seq<Order>, seqNo: nat, lastInputId: StreamId,
    appliedCount: nat, appliedCommandIds: seq<string>, lastObserverSeq: int)

  lemma {:induction false} SortKeysMembers(s: seq<string>)
    ensures forall x :: x in SortKeys(s) <==> x in s
  {
    if s != [] {
      SortKeysMembers(s[1..]);
      InsertKeyMembers(s[0], SortKeys(s[1..]));
      assert s == [s[0]] + s[1..];
    }
  }

  lemma {:induction false} InsertKeyMembers(k: string, s: seq<string>)
    ensures forall x :: x in InsertKey(k, s) <==> x == k || x in s
  {
    if s != [] && !Less(k, s[0]) {
      InsertKeyMembers(k, s[1..]);
      assert s == [s[0]] + s[1..];
    }
  }

  function Pairs<V>(m: JsMap<V>, keys: seq<string>): seq<(string, V)>
    requires forall k :: k in keys ==> k in m.at
  {
    if keys == [] then [] else [(keys[0], m.at[keys[0]])] + Pairs(m, keys[1..])
  }

  /** Entries sorted by key. */
  function SortedEntries<V>(m: JsMap<V>): seq<(string, V)>
    requires m.Ok()
  {
    SortKeysMembers(m.keys);
    Pairs(m, SortKeys(m.keys))
  }

  function FromEntries<V>(entries: seq<(string, V)>): JsMap<V>
  {
    if entries == [] then Empty()
    else
      var n := |entries| - 1;
      FromEntries(entries[..n]).Set(entries[n].0, entries[n].1)
  }

  function Serialize(s: State): Serialized
    requires s.balances.Ok() && s.positions.Ok()
  {
    Serialized(STATE_VERSION, s.market, s.markPrice, s.lastTradePrice,
               SortedEntries(s.balances), SortedEntries(s.positions), s.bids, s.asks,
               s.seqNo, s.lastInputId, s.appliedCount, s.appliedCommandIds, s.lastObserverSeq)
  }

  /** None for an unsupported version, where the source throws. */
  function Deserialize(x: Serialized): Option<State>
  {
    if x.version != STATE_VERSION then None
    else Some(State(x.market, x.markPrice, x.lastTradePrice,
                    FromEntries(x.balances), FromEntries(x.positions), x.bids, x.asks,
                    x.seqNo, x.lastInputId, x.appliedCount, x.appliedCommandIds, x.lastObserverSeq))
  }

  lemma {:induction false} PairsLast<V>(m: JsMap<V>, keys: seq<string>)
    requires keys != [] && forall k :: k in keys ==> k in m.at
    ensures var n := |keys| - 1; Pairs(m, keys) == Pairs(m, keys[..n]) + [(keys[n], m.at[keys[n]])]
  {
    var n := |keys| - 1;
    if n != 0 {
      PairsLast(m, keys[1..]);
      assert keys[1..][..n - 1] == keys[..n][1..];
    }
  }

  lemma {:induction false} FromPairs<V>(m: JsMap<V>, keys: seq<string>)
    requires NoDuplicates(keys) && forall k :: k in keys ==> k in m.at
    ensures var r := FromEntries(Pairs(m, keys));
      && r.keys == keys
      && (forall k :: k in r.at <==> k in keys)
      && (forall k :: k in keys ==> r.at[k] == m.at[k])
  {
    if keys != [] {
      var n := |keys| - 1;
      PairsLast(m, keys);
      FromPairs(m, keys[..n]);
      var p := Pairs(m, keys);
      assert p[..|p| - 1] == Pairs(m, keys[..n]);
      assert keys == keys[..n] + [keys[n]] && keys[n] !in keys[..n];
    }
  }

  lemma FromSorted<V>(m: JsMap<V>)
    requires m.Ok()
    ensures var r := FromEntries(SortedEntries(m));
      r.Ok() && r.at == m.at && r.keys == SortKeys(m.keys)
  {
    SortKeysMembers(m.keys);
    SortKeysSorted(m.keys);
    AscendingNoDuplicates(SortKeys(m.keys));
    FromPairs(m, SortKeys(m.keys));
    assert FromEntries(SortedEntries(m)).at == m.at;
  }

  /** Equal contents serialize to equal entries. */
  lemma SortedCanonical<V>(m: JsMap<V>, n: JsMap<V>)
    requires m.Ok() && n.Ok() && m.at == n.at
    ensures SortedEntries(m) == SortedEntries(n)
  {
    SortKeysSorted(m.keys);
    SortKeysSorted(n.keys);
    AscendingUnique(SortKeys(m.keys), SortKeys(n.keys));
    PairsAgree(m, n, SortKeys(m.keys));
  }

  lemma {:induction false} PairsAgree<V>(m: JsMap<V>, n: JsMap<V>, keys: seq<string>)
    requires m.at == n.at && forall k :: k in keys ==> k in m.at
    ensures Pairs(m, keys) == Pairs(n, keys)
  {
    if keys != [] {
      PairsAgree(m, n, keys[1..]);
    }
  }

  lemma AlikeWf(s: State, t: State)
    requires Wf(s) && Alike(s, t) && t.balances.Ok() && t.positions.Ok()
    ensures Wf(t)
  {
    assert BookOk(t) by { hide SideOk; }
    assert forall u :: AccountOf(t, u) == AccountOf(s, u);
  }

  /** Restoring a snapshot gives an alike, well-formed state at the same stream position. */
  lemma RestoreAlike(s: State)
    requires Wf(s)
    ensures var r := Deserialize(Serialize(s));
      && r.Some? && Alike(s, r.value) && Wf(r.value)
      && r.value.lastInputId == s.lastInputId && r.value.appliedCount == s.appliedCount
  {
    FromSorted(s.balances);
    FromSorted(s.positions);
    hide SortedEntries, FromEntries, SortKeys, Wf;
    AlikeWf(s, Deserialize(Serialize(s)).value);
  }

  /** Two states serialize identically exactly when they are alike and stand at the same
      stream position and count. */
  lemma SerializeCharacterizesAlike(s: State, t: State)
    requires Wf(s) && Wf(t)
    ensures Serialize(s) == Serialize(t) <==>
              Alike(s, t) && s.lastInputId == t.lastInputId && s.appliedCount == t.appliedCount
  {
    if Alike(s, t) && s.lastInputId == t.lastInputId && s.appliedCount == t.appliedCount {
      SortedCanonical(s.balances, t.balances);
      SortedCanonical(s.positions, t.positions);
    }
    if Serialize(s) == Serialize(t) {
      RestoreAlike(s);
      RestoreAlike(t);
      AlikeTransitive(t, Deserialize(Serialize(s)).value, Deserialize(Serialize(s)).value);
      AlikeTransitive(s, Deserialize(Serialize(s)).value, t);
    }
  }

  lemma {:induction false} RunAlike(s: State, t: State, es: seq<Input>)
    requires Wf(s) && Wf(t) && Alike(s, t) && AllAdmitted(es)
    requires s.lastInputId == t.lastInputId && s.appliedCount == t.appliedCount
    ensures var x, y := Run(s, es), Run(t, es);
      Alike(x, y) && x.lastInputId == y.lastInputId && x.appliedCount == y.appliedCount
  {
    if es != [] {
      var n := |es| - 1;
      RunAlike(s, t, es[..n]);
      StepAlike(Run(s, es[..n]), Run(t, es[..n]), es[n].event, es[n].id, es[n].id);
    }
  }

  /** Snapshot, restore and continue is the same as continuing: for every well-formed
      state and every sequence of inputs the final states serialize identically. */
  lemma RestoreBisimulation(s: State, es: seq<Input>)
    requires Wf(s) && AllAdmitted(es)
    ensures var r := Deserialize(Serialize(s));
      r.Some? && Wf(r.value) && Serialize(Run(r.value, es)) == Serialize(Run(s, es))
  {
    RestoreAlike(s);
    var t := Deserialize(Serialize(s)).value;
    RunAlike(s, t, es);
    SerializeCharacterizesAlike(Run(t, es), Run(s, es));
    AlikeTransitive(Run(s, es), Run(t, es), Run(t, es));
  }
}
