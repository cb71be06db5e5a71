/** A reader that keeps the last reported balance and position of every user agrees with
    the engine after every event. */
module Projection {
  import opened Money
  import opened States
  import opened JsMaps
  import opened Accounts
  import opened EngineSpec
  import opened Invariants
  import ZeroSum

  /** The fields of a position that only fills and liquidations change. */
  datatype Reported = Reported(size: int, entryPrice: int, margin: int, leverage: int, liqPrice: int, realizedPnl: int)

  function ReportedOf(p: Position): Reported
  {
    Reported(p.size, p.entryPrice, p.margin, p.leverage, p.liqPrice, p.realizedPnl)
  }

  datatype Mirror = Mirror(balances: map<string, Balance>, positions: map<string, Reported>)

  function Apply(m: Mirror, d: Draft): Mirror
  {
    match d
    case BalanceUpdated(u, b) => m.(balances := m.balances[u := b])
    case PositionUpdated(u, p) => m.(positions := m.positions[u := ReportedOf(p)])
    case _ => m
  }

  function ApplyAll(m: Mirror, drafts: seq<Draft>): Mirror
    decreases |drafts|
  {
    if drafts == [] then m else ApplyAll(Apply(m, drafts[0]), drafts[1..])
  }

  lemma {:induction false} ApplyConcat(m: Mirror, a: seq<Draft>, b: seq<Draft>)
    ensures ApplyAll(m, a + b) == ApplyAll(ApplyAll(m, a), b)
    decreases |a|
  {
    if a == [] {
      assert a + b == b;
    } else {
      assert (a + b)[1..] == a[1..] + b;
      ApplyConcat(Apply(m, a[0]), a[1..], b);
    }
  }

  lemma ApplyTwo(m: Mirror, d: Draft, e: Draft)
    ensures ApplyAll(m, [d, e]) == Apply(Apply(m, d), e)
  {
    assert [d, e][1..] == [e] && [e][1..] == [];
    assert ApplyAll(Apply(m, d), [e]) == Apply(Apply(m, d), e);
  }

  predicate Silent(drafts: seq<Draft>)
  {
    forall i :: 0 <= i < |drafts| ==> !drafts[i].BalanceUpdated? && !drafts[i].PositionUpdated?
  }

  lemma {:induction false} SilentKeeps(m: Mirror, drafts: seq<Draft>)
    requires Silent(drafts)
    ensures ApplyAll(m, drafts) == m
  {
    if drafts != [] {
      SilentKeeps(m, drafts[1..]);
    }
  }

  /** Mirror and state agree on one user. */
  predicate Same(m: Mirror, s: State, u: string)
  {
    && (u in m.balances <==> u in s.balances.at)
    && (u in m.balances ==> m.balances[u] == s.balances.at[u])
    && (u in m.positions <==> u in s.positions.at)
    && (u in m.positions ==> m.positions[u] == ReportedOf(s.positions.at[u]))
  }

  ghost predicate Agrees(m: Mirror, s: State) { forall u :: Same(m, s, u) }

  ghost predicate AgreesExcept(m: Mirror, s: State, users: seq<string>)
  {
    forall u :: u !in users ==> Same(m, s, u)
  }

  // ----- Reports cover the affected users -----

  lemma {:induction false} ReportsCover(m: Mirror, s: State, users: seq<string>)
    requires AgreesExcept(m, s, users) && forall u :: u in users ==> u in s.balances.at
    ensures Agrees(ApplyAll(m, ReportAll(s, users)), EnsureAll(s, users))
    decreases |users|
  {
    if users != [] {
      var u := users[0];
      var s1 := EnsurePosition(s, u);
      var two := [BalanceDraft(s1, u), PositionDraft(s1, u)];
      ApplyConcat(m, two, ReportAll(s1, users[1..]));
      ApplyTwo(m, two[0], two[1]);
      var m1 := ApplyAll(m, two);
      assert users == [u] + users[1..];
      forall v | v !in users[1..] ensures Same(m1, s1, v) {
        if v != u { assert v !in users && Same(m, s, v); }
      }
      ReportsCover(m1, s1, users[1..]);
    }
  }

  /** Only affected users change while an order executes. */
  ghost predicate OthersUnchanged(s: State, t: State, users: seq<string>)
  {
    forall u :: u !in users ==>
      && (u in s.balances.at <==> u in t.balances.at) && (u in s.balances.at ==> s.balances.at[u] == t.balances.at[u])
      && (u in s.positions.at <==> u in t.positions.at) && (u in s.positions.at ==> s.positions.at[u] == t.positions.at[u])
  }

  lemma FilledOthers(o: Place, s: State, qty: int)
    requires 0 < o.quantity && 0 < qty && s.Orders(o.side.Opposite()) != []
    ensures OthersUnchanged(s, FilledState(o, s, qty), [s.Orders(o.side.Opposite())[0].userId, o.userId])
  {
  }

  lemma {:induction false} MatchOthers(s: State, o: Place, ts: nat, m: Matching)
    requires Ready(o, m) && o.userId in m.affected && OthersUnchanged(s, m.s, m.affected) && Silent(m.outs)
    ensures var n := MatchAll(o, ts, m);
      o.userId in n.affected && OthersUnchanged(s, n.s, n.affected) && Silent(n.outs)
    decreases |Makers(o, m)|, Max(0, m.remaining)
  {
    hide *;
    MatchUnfold(o, ts, m);
    if CanFill(o, m) {
      StepOthers(s, o, ts, m);
      MatchOthers(s, o, ts, FillStep(o, ts, m));
    }
  }

  lemma OthersChain(s: State, t: State, r: State, users: seq<string>, x: string, y: string)
    requires OthersUnchanged(s, t, users) && OthersUnchanged(t, r, [x, y]) && y in users
    ensures OthersUnchanged(s, r, AddOnce(users, x))
  {
    forall u | u !in AddOnce(users, x) ensures u !in users && u !in [x, y] {}
  }

  lemma StepOthers(s: State, o: Place, ts: nat, m: Matching)
    requires Ready(o, m) && CanFill(o, m)
    requires o.userId in m.affected && OthersUnchanged(s, m.s, m.affected) && Silent(m.outs)
    ensures var n := FillStep(o, ts, m);
      o.userId in n.affected && OthersUnchanged(s, n.s, n.affected) && Silent(n.outs)
  {
    var x, qty := Makers(o, m)[0], FillQty(o, m);
    FilledOthers(o, m.s, qty);
    StepReports(o, ts, m);
    hide FilledState, FillStep, Ready, OthersUnchanged, StepDrafts;
    OthersChain(s, m.s, FillStep(o, ts, m).s, m.affected, x.userId, o.userId);
  }

  lemma StepReports(o: Place, ts: nat, m: Matching)
    requires Ready(o, m) && CanFill(o, m) && Silent(m.outs)
    ensures var n := FillStep(o, ts, m);
      && n.s == FilledState(o, m.s, FillQty(o, m))
      && n.affected == AddOnce(m.affected, Makers(o, m)[0].userId)
      && Silent(n.outs)
  {
    ReadyPositive(o, m);
    FillStepShape(o, ts, m);
    hide FillStep, FilledState, Ready, FillQty;
    var n, x := FillStep(o, ts, m), Makers(o, m)[0];
    SilentStep(m.outs, o, ts, x, FillQty(o, m), m.remaining - FillQty(o, m), n.s);
  }

  lemma SilentStep(outs: seq<Draft>, o: Place, ts: nat, x: Order, qty: int, left: int, s: State)
    requires Silent(outs)
    ensures Silent(outs + StepDrafts(o, ts, x, qty, left, s))
  {
  }

  lemma RemainderOthers(s: State, o: Place, ts: nat, m: Matching)
    requires 0 < o.quantity && o.userId in m.affected && OthersUnchanged(s, m.s, m.affected) && Silent(m.outs)
    ensures var n := HandleRemainder(o, ts, m);
      n.affected == m.affected && OthersUnchanged(s, n.s, n.affected) && Silent(n.outs)
  {
  }

  lemma {:induction false} MakersAcceptedSilent(keys: seq<string>, t: JsMap<Touched>)
    requires forall k :: k in keys ==> k in t.at
    ensures Silent(MakersAccepted(keys, t))
  {
    if keys != [] {
      MakersAcceptedSilent(keys[1..], t);
    }
  }

  lemma ExecutedOthers(s: State, o: Place, ts: nat)
    requires Wf(s) && Refusal(s, o).None? && 0 < o.quantity && 0 < o.margin && 0 <= o.price
    ensures OthersUnchanged(s, Executed(s, o, ts).s, Executed(s, o, ts).affected) && Silent(Executed(s, o, ts).outs)
  {
    StartMatchingReady(s, o);
    MatchOthers(s, o, ts, StartMatching(s, o));
    hide MatchAll, OthersUnchanged, HandleRemainder, StartMatching, Ready;
    RemainderOthers(s, o, ts, MatchAll(o, ts, StartMatching(s, o)));
  }

  lemma AgreesOthers(m: Mirror, s: State, t: State, users: seq<string>)
    requires Agrees(m, s) && OthersUnchanged(s, t, users)
    ensures AgreesExcept(m, t, users)
  {
    forall u | u !in users ensures Same(m, t, u) {
      assert Same(m, s, u);
    }
  }

  lemma OrderDraftsCover(m: Mirror, o: Place, n: Matching)
    requires n.makerTouched.Ok() && Silent(n.outs) && AgreesExcept(m, n.s, n.affected)
    requires forall u :: u in n.affected ==> u in n.s.balances.at
    ensures Agrees(ApplyAll(m, OrderDrafts(o, n)), EnsureAll(n.s, n.affected))
  {
    var a, b, c := n.outs, MakersAccepted(n.makerTouched.keys, n.makerTouched), ReportAll(n.s, n.affected);
    var d := [TakerAccepted(o, n.remaining, n.filledNotional)];
    MakersAcceptedSilent(n.makerTouched.keys, n.makerTouched);
    ApplyConcat(m, a + b + c, d);
    ApplyConcat(m, a + b, c);
    ApplyConcat(m, a, b);
    SilentKeeps(m, a);
    SilentKeeps(m, b);
    ReportsCover(m, n.s, n.affected);
    SilentKeeps(ApplyAll(m, c), d);
    hide ApplyAll, MakersAccepted, ReportAll, EnsureAll, Agrees;
  }

  lemma PlaceAgrees(m: Mirror, s: State, o: Place, ts: nat, c: Option<string>)
    requires Wf(s) && Agrees(m, s) && 0 < o.quantity && 0 < o.margin && 0 <= o.price
    ensures Agrees(ApplyAll(m, OnPlaceOrder(s, o, ts, c).1), OnPlaceOrder(s, o, ts, c).0)
  {
    if Refusal(s, o).None? {
      var n := Executed(s, o, ts);
      ExecutedOthers(s, o, ts);
      AgreesOthers(m, s, n.s, n.affected);
      MatchedFrame(s, o, ts);
      hide Executed, Agrees, AgreesExcept, Wf, OrderDrafts, Refusal;
      OrderDraftsCover(m, o, n);
    } else {
      hide Refusal;
      SilentKeeps(m, OnPlaceOrder(s, o, ts, c).1);
    }
  }

  // ----- The other events -----

  lemma CreditAgrees(m: Mirror, s: State, t: State, u: string)
    requires Agrees(m, s) && u in t.balances.at && t.positions == s.positions
    requires t.balances.at == s.balances.at[u := t.balances.at[u]]
    ensures Agrees(ApplyAll(m, [BalanceDraft(t, u)]), t)
  {
    var d := [BalanceDraft(t, u)];
    assert d[1..] == [];
    assert ApplyAll(m, d) == Apply(m, d[0]);
    forall v ensures Same(ApplyAll(m, d), t, v) { assert Same(m, s, v); }
  }

  lemma CreatedAgrees(m: Mirror, s: State, u: string, openingBalance: int)
    requires Agrees(m, s)
    ensures var r := OnUserCreated(s, u, openingBalance); Agrees(ApplyAll(m, r.1), r.0)
  {
    hide Agrees;
    CreditAgrees(m, s, OnUserCreated(s, u, openingBalance).0, u);
  }

  lemma DepositedAgrees(m: Mirror, s: State, u: string, amount: int)
    requires Agrees(m, s)
    ensures var r := OnBalanceDeposited(s, u, amount); Agrees(ApplyAll(m, r.1), r.0)
  {
    hide Agrees;
    CreditAgrees(m, s, OnBalanceDeposited(s, u, amount).0, u);
  }

  lemma MiddleOne(m: Mirror, d: Draft, e: Draft, f: Draft)
    requires Silent([d]) && Silent([f])
    ensures ApplyAll(m, [d, e, f]) == ApplyAll(m, [e])
  {
    assert [d, e, f] == [d] + ([e] + [f]);
    ApplyConcat(m, [d], [e] + [f]);
    SilentKeeps(m, [d]);
    ApplyConcat(m, [e], [f]);
    SilentKeeps(ApplyAll(m, [e]), [f]);
  }

  lemma CancelAgrees(m: Mirror, s: State, u: string, orderId: string, side: Side, price: int, c: Option<string>)
    requires Wf(s) && Agrees(m, s)
    ensures var r := OnCancelOrder(s, u, orderId, side, price, c); Agrees(ApplyAll(m, r.1), r.0)
  {
    var (t, drafts) := OnCancelOrder(s, u, orderId, side, price, c);
    if |drafts| == 2 {
      hide Wf, Agrees;
      SilentKeeps(m, drafts);
    } else {
      MiddleOne(m, drafts[0], drafts[1], drafts[2]);
      assert drafts == [drafts[0], drafts[1], drafts[2]];
      hide Wf, Agrees, ApplyAll, Book.Remove, Book.Find;
      CreditAgrees(m, s, t, u);
    }
  }

  lemma {:induction false} LiquidationsCover(m: Mirror, s: State, t: State, users: seq<string>, mark: int)
    requires AgreesExcept(m, t, users)
    requires forall u :: u in users ==> u in t.balances.at && u in t.positions.at
    ensures Agrees(ApplyAll(m, LiquidationDrafts(s, t, users, mark)), t)
    decreases |users|
  {
    if users != [] {
      var u := users[0];
      var all := LiquidationDrafts(s, t, users, mark);
      var rest := LiquidationDrafts(s, t, users[1..], mark);
      var d := all[0];
      var three := [d] + [BalanceDraft(t, u), PositionDraft(t, u)];
      assert all == three + rest;
      ApplyConcat(m, three, rest);
      ApplyConcat(m, [d], [BalanceDraft(t, u), PositionDraft(t, u)]);
      SilentKeeps(m, [d]);
      var two := [BalanceDraft(t, u), PositionDraft(t, u)];
      ApplyTwo(m, two[0], two[1]);
      var m1 := ApplyAll(m, two);
      assert users == [u] + users[1..];
      forall v | v !in users[1..] ensures Same(m1, t, v) {
        if v != u { assert v !in users && Same(m, t, v); }
      }
      LiquidationsCover(m1, s, t, users[1..], mark);
    }
  }

  lemma TickAgrees(m: Mirror, s: State, price: int, observerSeq: int)
    requires Wf(s) && Agrees(m, s)
    ensures var r := OnIndexPrice(s, price, observerSeq); Agrees(ApplyAll(m, r.1), r.0)
  {
    if s.lastObserverSeq < observerSeq {
      var s1 := MarkToMarket(s.(lastObserverSeq := observerSeq), price);
      var t := Sweep(s1, price);
      var users := DoomedAmong(s1, s1.positions.keys, price);
      ZeroSum.DoomedAmongFacts(s1, s1.positions.keys, price);
      forall u | u !in users ensures Same(m, t, u) {
        assert Same(m, s, u);
        assert !Doomed(s1, u, price);
      }
      LiquidationsCover(m, s1, t, users, price);
    }
  }

  lemma DispatchAgrees(m: Mirror, s: State, e: Event)
    requires Wf(s) && e.Admitted() && Agrees(m, s)
    ensures Agrees(ApplyAll(m, Dispatch(s, e).1), Dispatch(s, e).0)
  {
    hide *;
    WfPositive(s);
    match e.payload
    case UserCreated(u, openingBalance) => CreateIs(s, e); CreatedAgrees(m, s, u, openingBalance);
    case BalanceDeposited(u, amount) => DepositIs(s, e); DepositedAgrees(m, s, u, amount);
    case PlaceOrder(o) => PlaceIs(s, e); PlaceAgrees(m, s, o, e.ts, e.commandId);
    case CancelOrder(u, orderId, side, price) =>
      CancelIs(s, e); CancelAgrees(m, s, u, orderId, side, price, e.commandId);
    case IndexPriceUpdated(price, observerSeq) => TickIs(s, e); TickAgrees(m, s, price, observerSeq);
  }

  /** One event keeps the mirror in agreement. */
  lemma StepAgrees(m: Mirror, s: State, e: Event, id: StreamId)
    requires Wf(s) && e.Admitted() && Agrees(m, s)
    ensures Agrees(ApplyAll(m, Drafts(s, e)), Step(s, e, id))
  {
    if AlreadyApplied(s, e) {
      forall u ensures Same(m, Step(s, e, id), u) { assert Same(m, s, u); }
    } else {
      DispatchAgrees(m, s, e);
      hide Dispatch, Wf, ApplyAll;
      var m1 := ApplyAll(m, Dispatch(s, e).1);
      forall u ensures Same(m1, Step(s, e, id), u) { assert Same(m1, Dispatch(s, e).0, u); }
    }
  }

  /** Everything drafted over a run. */
  ghost function RunDrafts(s: State, es: seq<Input>): seq<Draft>
    requires Wf(s) && AllAdmitted(es)
  {
    if es == [] then []
    else
      var n := |es| - 1;
      RunDrafts(s, es[..n]) + Drafts(Run(s, es[..n]), es[n].event)
  }

  lemma GenesisAgrees(market: MarketConfig)
    ensures Agrees(ApplyAll(Mirror(map[], map[]), []), CreateState(market))
  {
  }

  /** Over every run from genesis: no handler changes a user without reporting it. */
  lemma {:induction false} ReportsDetermineAccounts(market: MarketConfig, es: seq<Input>)
    requires AllAdmitted(es)
    ensures Wf(CreateState(market))
    ensures Agrees(ApplyAll(Mirror(map[], map[]), RunDrafts(CreateState(market), es)), Run(CreateState(market), es))
  {
    GenesisWf(market);
    hide Agrees, ApplyAll, Step, Drafts, Wf;
    if es == [] {
      GenesisAgrees(market);
    } else {
      var n := |es| - 1;
      var s := CreateState(market);
      WfPositive(Run(s, es[..n]));
      ReportsDetermineAccounts(market, es[..n]);
      var m := ApplyAll(Mirror(map[], map[]), RunDrafts(s, es[..n]));
      ApplyConcat(Mirror(map[], map[]), RunDrafts(s, es[..n]), Drafts(Run(s, es[..n]), es[n].event));
      StepAgrees(m, Run(s, es[..n]), es[n].event, es[n].id);
    }
  }
}
