/** The trades of a run: the engine's positions are the folds of the recorded legs, and
    the whole market is zero-sum. */
module ZeroSum {
  import opened Money
  import opened States
  import opened JsMaps
  import opened Accounts
  import opened EngineSpec
  import opened Invariants
  import opened PositionLedger

  /** Forced closes of a price tick: every doomed user trades their position at the mark. */
  function ForcedLegs(s: State, users: seq<string>, mark: int): seq<Leg>
  {
    if users == [] then []
    else
      var n := |users| - 1;
      ForcedLegs(s, users[..n], mark) + [Leg(users[n], -s.PositionOf(users[n]).size, mark, true)]
  }

  /** The legs an event trades. */
  ghost function EventLegs(s: State, e: Event): seq<Leg>
    requires Wf(s) && e.Admitted()
  {
    if AlreadyApplied(s, e) then []
    else match e.payload
      case PlaceOrder(o) =>
        if Refusal(s, o).Some? then [] else MatchAll(o, e.ts, StartMatching(s, o)).legs
      case IndexPriceUpdated(price, observerSeq) =>
        if observerSeq <= s.lastObserverSeq then []
        else
          var s1 := MarkToMarket(s.(lastObserverSeq := observerSeq), price);
          ForcedLegs(s1, DoomedAmong(s1, s1.positions.keys, price), price)
      case _ => []
  }

  ghost function RunLegs(s: State, es: seq<Input>): seq<Leg>
    requires Wf(s) && AllAdmitted(es)
  {
    if es == [] then []
    else
      var n := |es| - 1;
      RunLegs(s, es[..n]) + EventLegs(Run(s, es[..n]), es[n].event)
  }

  /** Every position is the fold of its owner's legs, and every leg's owner has one. */
  ghost predicate Records(s: State, legs: seq<Leg>)
  {
    && Traded(legs)
    && (forall u :: ViewOf(s.PositionOf(u)) == FoldFor(u, legs))
    && Owned(s, legs)
  }

  predicate Owned(s: State, legs: seq<Leg>)
  {
    forall i :: 0 <= i < |legs| ==> legs[i].userId in s.positions.at
  }

  lemma RecordLeg(s: State, t: State, legs: seq<Leg>, l: Leg)
    requires Records(s, legs) && l.signed != 0 && l.userId in t.positions.at
    requires forall u :: u in s.positions.at ==> u in t.positions.at
    requires forall u :: ViewOf(t.PositionOf(u)) ==
                         (if u == l.userId then FoldLeg(ViewOf(s.PositionOf(u)), l.signed, l.price)
                          else ViewOf(s.PositionOf(u)))
    ensures Records(t, legs + [l])
  {
    assert (legs + [l])[..|legs + [l]| - 1] == legs;
    forall u ensures ViewOf(t.PositionOf(u)) == FoldFor(u, legs + [l]) {
      assert ViewOf(s.PositionOf(u)) == FoldFor(u, legs);
    }
  }

  lemma RecordFill(s: State, u: string, f: Fill, legs: seq<Leg>)
    requires Records(s, legs) && 0 < f.qty
    ensures Records(FillUser(s, u, f), legs + [Leg(u, f.Signed(), f.price, false)])
  {
    ApplyFillIsFoldLeg(AccountOf(s, u), f, s.market.maintenanceMarginRate);
    RecordLeg(s, FillUser(s, u, f), legs, Leg(u, f.Signed(), f.price, false));
  }

  /** Views are not affected by anything but positions. */
  lemma RecordsFrame(s: State, t: State, legs: seq<Leg>)
    requires Records(s, legs) && t.positions == s.positions
    ensures Records(t, legs)
  {
    forall u ensures ViewOf(t.PositionOf(u)) == FoldFor(u, legs) {
      assert ViewOf(s.PositionOf(u)) == FoldFor(u, legs);
    }
  }

  lemma FilledStateRecords(o: Place, m: Matching, legs: seq<Leg>)
    requires Ready(o, m) && CanFill(o, m) && Records(m.s, legs)
    ensures Records(FilledState(o, m.s, FillQty(o, m)), legs + [MakerLeg(o, m)] + [TakerLeg(o, m)])
  {
    var qty, maker := FillQty(o, m), Makers(o, m)[0];
    var s1 := m.s.WithOrders(o.side.Opposite(), MakersAfter(Makers(o, m), qty));
    RecordsFrame(m.s, s1, legs);
    var fm, ft := MakerFill(maker, qty), TakerFill(o, maker.price, qty);
    RecordFill(s1, maker.userId, fm, legs);
    var s2 := FillUser(s1, maker.userId, fm);
    RecordFill(s2, o.userId, ft, legs + [MakerLeg(o, m)]);
    RecordsFrame(FillUser(s2, o.userId, ft), FilledState(o, m.s, qty), legs + [MakerLeg(o, m)] + [TakerLeg(o, m)]);
  }

  lemma FillStepRecords(o: Place, ts: nat, m: Matching, before: seq<Leg>)
    requires Ready(o, m) && CanFill(o, m) && Records(m.s, before + m.legs)
    ensures Records(FillStep(o, ts, m).s, before + FillStep(o, ts, m).legs)
  {
    FilledStateRecords(o, m, before + m.legs);
    FillStepLegs(o, ts, m, before);
  }

  lemma FillStepLegs(o: Place, ts: nat, m: Matching, before: seq<Leg>)
    requires Ready(o, m) && CanFill(o, m)
    ensures before + FillStep(o, ts, m).legs == before + m.legs + [MakerLeg(o, m)] + [TakerLeg(o, m)]
  {
    AppendTwo(before, m.legs, MakerLeg(o, m), TakerLeg(o, m));
  }

  lemma AppendTwo(a: seq<Leg>, b: seq<Leg>, x: Leg, y: Leg)
    ensures a + (b + [x, y]) == a + b + [x] + [y]
  {
  }

  lemma {:induction false} MatchAllRecords(o: Place, ts: nat, m: Matching, before: seq<Leg>)
    requires Ready(o, m) && Records(m.s, before + m.legs)
    ensures Records(MatchAll(o, ts, m).s, before + MatchAll(o, ts, m).legs)
    decreases |Makers(o, m)|, Max(0, m.remaining)
  {
    hide *;
    MatchUnfold(o, ts, m);
    if CanFill(o, m) {
      FillStepRecords(o, ts, m, before);
      MatchAllRecords(o, ts, FillStep(o, ts, m), before);
    }
  }

  lemma {:induction false} EnsureAllRecords(s: State, users: seq<string>, legs: seq<Leg>)
    requires Records(s, legs)
    ensures Records(EnsureAll(s, users), legs)
    decreases |users|
  {
    if users != [] {
      var t := EnsurePosition(s, users[0]);
      forall u ensures ViewOf(t.PositionOf(u)) == FoldFor(u, legs) {
        assert ViewOf(s.PositionOf(u)) == FoldFor(u, legs);
      }
      EnsureAllRecords(t, users[1..], legs);
    }
  }

  lemma PlaceRecords(s: State, o: Place, ts: nat, c: Option<string>, legs: seq<Leg>)
    requires Wf(s) && Records(s, legs) && 0 < o.quantity && 0 < o.margin && 0 <= o.price && Refusal(s, o).None?
    ensures Records(OnPlaceOrder(s, o, ts, c).0, legs + MatchAll(o, ts, StartMatching(s, o)).legs)
  {
    StartMatchingReady(s, o);
    assert legs + [] == legs;
    RecordsFrame(s, StartMatching(s, o).s, legs);
    MatchAllRecords(o, ts, StartMatching(s, o), legs);
    RemainderRecords(o, ts, MatchAll(o, ts, StartMatching(s, o)), legs);
    var h := Executed(s, o, ts);
    EnsureAllRecords(h.s, h.affected, legs + MatchAll(o, ts, StartMatching(s, o)).legs);
  }

  lemma RemainderRecords(o: Place, ts: nat, m: Matching, legs: seq<Leg>)
    requires 0 < o.quantity && Records(m.s, legs + m.legs)
    ensures Records(HandleRemainder(o, ts, m).s, legs + m.legs)
  {
    RecordsFrame(m.s, HandleRemainder(o, ts, m).s, legs + m.legs);
  }

  // ----- Ticks -----

  lemma {:induction false} DoomedAmongFacts(s: State, keys: seq<string>, mark: int)
    requires NoDuplicates(keys)
    ensures forall u :: u in DoomedAmong(s, keys, mark) <==> u in keys && Doomed(s, u, mark)
    ensures NoDuplicates(DoomedAmong(s, keys, mark))
  {
    if keys != [] {
      assert keys == [keys[0]] + keys[1..];
      DoomedAmongFacts(s, keys[1..], mark);
      assert keys[0] !in keys[1..];
    }
  }

  lemma {:induction false} ForcedShape(s: State, users: seq<string>, mark: int, legs: seq<Leg>)
    requires Records(s, legs)
    requires forall v :: v in users ==> v in s.positions.at && s.positions.at[v].size != 0
    ensures Traded(legs + ForcedLegs(s, users, mark)) && Owned(s, legs + ForcedLegs(s, users, mark))
  {
    if users == [] {
      assert legs + ForcedLegs(s, users, mark) == legs;
    } else {
      var n := |users| - 1;
      ForcedShape(s, users[..n], mark, legs);
      assert users[n] in users;
      var rest, l := legs + ForcedLegs(s, users[..n], mark), Leg(users[n], -s.PositionOf(users[n]).size, mark, true);
      assert legs + ForcedLegs(s, users, mark) == rest + [l];
      assert Traded(rest + [l]) && Owned(s, rest + [l]);
    }
  }

  /** Appending the forced legs of distinct users folds each of them once. */
  lemma {:induction false} ForcedFold(s: State, users: seq<string>, mark: int, legs: seq<Leg>, u: string)
    requires Records(s, legs) && NoDuplicates(users) && Traded(legs + ForcedLegs(s, users, mark))
    requires forall v :: v in users ==> s.PositionOf(v).size != 0
    ensures FoldFor(u, legs + ForcedLegs(s, users, mark)) ==
              if u in users then FoldLeg(ViewOf(s.PositionOf(u)), -s.PositionOf(u).size, mark)
              else ViewOf(s.PositionOf(u))
  {
    if users == [] {
      assert legs + ForcedLegs(s, users, mark) == legs;
      assert ViewOf(s.PositionOf(u)) == FoldFor(u, legs);
    } else {
      var n := |users| - 1;
      var all := legs + ForcedLegs(s, users, mark);
      var rest := legs + ForcedLegs(s, users[..n], mark);
      assert all[..|all| - 1] == rest;
      assert Traded(rest) by { assert forall i :: 0 <= i < |rest| ==> rest[i] == all[i]; }
      ForcedFold(s, users[..n], mark, legs, u);
      assert users == users[..n] + [users[n]];
      assert users[n] !in users[..n];
      assert all[|all| - 1] == Leg(users[n], -s.PositionOf(users[n]).size, mark, true);
    }
  }

  lemma TickRecords(s: State, price: int, observerSeq: int, legs: seq<Leg>)
    requires Wf(s) && Records(s, legs) && s.lastObserverSeq < observerSeq
    ensures var s1 := MarkToMarket(s.(lastObserverSeq := observerSeq), price);
      Records(OnIndexPrice(s, price, observerSeq).0,
              legs + ForcedLegs(s1, DoomedAmong(s1, s1.positions.keys, price), price))
  {
    var s1 := MarkToMarket(s.(lastObserverSeq := observerSeq), price);
    MarkedRecords(s, observerSeq, price, legs);
    var users := DoomedAmong(s1, s1.positions.keys, price);
    DoomedAmongFacts(s1, s1.positions.keys, price);
    var t := Sweep(s1, price);
    var all := legs + ForcedLegs(s1, users, price);
    ForcedShape(s1, users, price, legs);
    forall u ensures ViewOf(t.PositionOf(u)) == FoldFor(u, all) {
      ForcedFold(s1, users, price, legs, u);
      SweptView(s1, price, u);
    }
  }

  lemma MarkedRecords(s: State, observerSeq: int, price: int, legs: seq<Leg>)
    requires Records(s, legs) && UsersOk(s)
    ensures var s1 := MarkToMarket(s.(lastObserverSeq := observerSeq), price);
      Records(s1, legs) && UsersOk(s1)
  {
    var s1 := MarkToMarket(s.(lastObserverSeq := observerSeq), price);
    forall u ensures ViewOf(s1.PositionOf(u)) == FoldFor(u, legs) {
      assert ViewOf(s.PositionOf(u)) == FoldFor(u, legs);
    }
  }

  lemma SweptView(s: State, mark: int, u: string)
    requires UsersOk(s)
    ensures ViewOf(Sweep(s, mark).PositionOf(u))
         == if Doomed(s, u, mark) then FoldLeg(ViewOf(s.PositionOf(u)), -s.PositionOf(u).size, mark)
            else ViewOf(s.PositionOf(u))
  {
    SweptAccount(s, mark, u);
    assert AccountOf(Sweep(s, mark), u).position == Sweep(s, mark).PositionOf(u);
    if Doomed(s, u, mark) {
      LiquidateIsFoldLeg(AccountOf(s, u), mark);
    }
  }

  lemma DispatchRecords(s: State, e: Event, legs: seq<Leg>)
    requires Wf(s) && e.Admitted() && Records(s, legs) && !AlreadyApplied(s, e)
    ensures Records(Dispatch(s, e).0, legs + EventLegs(s, e))
  {
    assert legs + [] == legs;
    match e.payload
    case PlaceOrder(o) =>
      if Refusal(s, o).None? { PlaceRecords(s, o, e.ts, e.commandId, legs); }
    case IndexPriceUpdated(price, observerSeq) =>
      if s.lastObserverSeq < observerSeq { TickRecords(s, price, observerSeq, legs); }
    case _ => RecordsFrame(s, Dispatch(s, e).0, legs);
  }

  lemma StepRecords(s: State, e: Event, id: StreamId, legs: seq<Leg>)
    requires Wf(s) && e.Admitted() && Records(s, legs)
    ensures Records(Step(s, e, id), legs + EventLegs(s, e))
  {
    if AlreadyApplied(s, e) {
      assert legs + [] == legs;
      RecordsFrame(s, Step(s, e, id), legs);
    } else {
      DispatchRecords(s, e, legs);
      RecordsFrame(Dispatch(s, e).0, Step(s, e, id), legs + EventLegs(s, e));
    }
  }

  /** Positions are folds of the recorded trades, over every run. */
  lemma {:induction false} RunRecords(market: MarketConfig, es: seq<Input>)
    requires AllAdmitted(es)
    ensures Wf(CreateState(market))
    ensures Records(Run(CreateState(market), es), RunLegs(CreateState(market), es))
  {
    GenesisWf(market);
    if es != [] {
      var n := |es| - 1;
      RunRecords(market, es[..n]);
      StepRecords(Run(CreateState(market), es[..n]), es[n].event, es[n].id, RunLegs(CreateState(market), es[..n]));
    }
  }

  /** Net quantity, cash identity and entry range of a user against a history. */
  ghost predicate MatchesLedger(u: string, v: View, legs: seq<Leg>)
    requires Traded(legs)
  {
    && v.size == SizeFor(u, legs)
    && 2 * Abs(UNIT * v.realized - v.size * v.entry + PaidFor(u, legs)) <= SlackFor(u, legs)
    && (ExactFor(u, legs) ==> UNIT * v.realized - v.size * v.entry == -PaidFor(u, legs))
    && (v.size != 0 ==> RangeFor(u, legs).lo <= v.entry <= RangeFor(u, legs).hi)
  }

  lemma FoldMatchesLedger(u: string, legs: seq<Leg>)
    requires Traded(legs)
    ensures MatchesLedger(u, FoldFor(u, legs), legs)
  {
    LedgerRefinement(u, legs);
    EntryInRange(u, legs);
    if ExactFor(u, legs) { ExactLedger(u, legs); }
  }

  /** For every user and run the engine's position matches the cash ledger of its trades. */
  lemma PositionsRefineCashLedger(market: MarketConfig, es: seq<Input>, u: string)
    requires AllAdmitted(es)
    ensures Wf(CreateState(market)) && Traded(RunLegs(CreateState(market), es))
    ensures MatchesLedger(u, ViewOf(Run(CreateState(market), es).PositionOf(u)), RunLegs(CreateState(market), es))
  {
    RunRecords(market, es);
    var legs, s := RunLegs(CreateState(market), es), Run(CreateState(market), es);
    assert ViewOf(s.PositionOf(u)) == FoldFor(u, legs);
    FoldMatchesLedger(u, legs);
  }

  // ----- Sums over all users -----

  function SumSizes(s: State, users: seq<string>): int
  {
    if users == [] then 0 else SumSizes(s, users[1..]) + s.PositionOf(users[0]).size
  }

  /** Realized PnL plus the open position's PnL at price m, in squared units. */
  function SumEquity(s: State, users: seq<string>, m: int): int
  {
    if users == [] then 0
    else
      var p := s.PositionOf(users[0]);
      SumEquity(s, users[1..], m) + UNIT * p.realizedPnl + (m - p.entryPrice) * p.size
  }

  /** The house takes over each liquidated position at its mark. */
  function HouseSize(legs: seq<Leg>): int
  {
    if legs == [] then 0
    else
      var n := |legs| - 1;
      HouseSize(legs[..n]) - (if legs[n].forced then legs[n].signed else 0)
  }

  function HouseCost(legs: seq<Leg>): int
  {
    if legs == [] then 0
    else
      var n := |legs| - 1;
      HouseCost(legs[..n]) - (if legs[n].forced then legs[n].signed * legs[n].price else 0)
  }

  function SumResidue(users: seq<string>, legs: seq<Leg>): int
    requires Traded(legs)
  {
    if users == [] then 0 else SumResidue(users[1..], legs) + ResidueFor(users[0], legs)
  }

  function SumSlack(users: seq<string>, legs: seq<Leg>): nat
    requires Traded(legs)
  {
    if users == [] then 0 else SumSlack(users[1..], legs) + SlackFor(users[0], legs)
  }

  /** Sums over users and over legs, exchanged. */
  function SumSizeFor(users: seq<string>, legs: seq<Leg>): int
  {
    if users == [] then 0 else SumSizeFor(users[1..], legs) + SizeFor(users[0], legs)
  }

  function SumPaidFor(users: seq<string>, legs: seq<Leg>): int
  {
    if users == [] then 0 else SumPaidFor(users[1..], legs) + PaidFor(users[0], legs)
  }

  lemma {:induction false} SumOneLeg(users: seq<string>, legs: seq<Leg>)
    requires NoDuplicates(users) && legs != []
    ensures var n := |legs| - 1; var hit := legs[n].userId in users;
      && SumSizeFor(users, legs) == SumSizeFor(users, legs[..n]) + (if hit then legs[n].signed else 0)
      && SumPaidFor(users, legs) == SumPaidFor(users, legs[..n]) + (if hit then legs[n].signed * legs[n].price else 0)
  {
    if users != [] {
      assert users == [users[0]] + users[1..];
      assert users[0] !in users[1..];
      SumOneLeg(users[1..], legs);
    }
  }

  function NetSize(legs: seq<Leg>): int
  {
    if legs == [] then 0 else var n := |legs| - 1; NetSize(legs[..n]) + legs[n].signed
  }

  function NetPaid(legs: seq<Leg>): int
  {
    if legs == [] then 0 else var n := |legs| - 1; NetPaid(legs[..n]) + legs[n].signed * legs[n].price
  }

  lemma {:induction false} SumsExchange(users: seq<string>, legs: seq<Leg>)
    requires NoDuplicates(users)
    requires forall i :: 0 <= i < |legs| ==> legs[i].userId in users
    ensures SumSizeFor(users, legs) == NetSize(legs) && SumPaidFor(users, legs) == NetPaid(legs)
  {
    if legs == [] {
      SumsEmpty(users);
    } else {
      SumsExchange(users, legs[..|legs| - 1]);
      SumOneLeg(users, legs);
    }
  }

  lemma {:induction false} SumsEmpty(users: seq<string>)
    ensures SumSizeFor(users, []) == 0 && SumPaidFor(users, []) == 0
  {
    if users != [] { SumsEmpty(users[1..]); }
  }

  /** Every fill has two opposite legs at one price: what is not forced nets to nothing. */
  ghost predicate Balanced(legs: seq<Leg>)
  {
    NetSize(legs) == -HouseSize(legs) && NetPaid(legs) == -HouseCost(legs)
  }

  lemma BalancedPair(legs: seq<Leg>, x: Leg, y: Leg)
    requires Balanced(legs) && !x.forced && !y.forced
    requires x.signed == -y.signed && x.price == y.price
    ensures Balanced(legs + [x, y])
  {
    var a, b := legs + [x], legs + [x, y];
    assert a[..|a| - 1] == legs && b[..|b| - 1] == a;
    assert x.signed * x.price == -(y.signed * y.price);
  }

  lemma {:induction false} BalancedForced(s: State, legs: seq<Leg>, users: seq<string>, mark: int)
    requires Balanced(legs)
    ensures Balanced(legs + ForcedLegs(s, users, mark))
  {
    if users == [] {
      assert legs + ForcedLegs(s, users, mark) == legs;
    } else {
      var n := |users| - 1;
      BalancedForced(s, legs, users[..n], mark);
      var all := legs + ForcedLegs(s, users, mark);
      assert all[..|all| - 1] == legs + ForcedLegs(s, users[..n], mark);
    }
  }

  lemma BalancedStep(o: Place, ts: nat, m: Matching, before: seq<Leg>)
    requires Ready(o, m) && CanFill(o, m) && Balanced(before + m.legs)
    ensures Balanced(before + FillStep(o, ts, m).legs)
  {
    var x, y := MakerLeg(o, m), TakerLeg(o, m);
    BalancedPair(before + m.legs, x, y);
    FillStepLegs(o, ts, m, before);
    assert before + m.legs + [x, y] == before + m.legs + [x] + [y];
  }

  lemma {:induction false} BalancedMatch(o: Place, ts: nat, m: Matching, before: seq<Leg>)
    requires Ready(o, m) && Balanced(before + m.legs)
    ensures Balanced(before + MatchAll(o, ts, m).legs)
    decreases |Makers(o, m)|, Max(0, m.remaining)
  {
    hide *;
    MatchUnfold(o, ts, m);
    if CanFill(o, m) {
      BalancedStep(o, ts, m, before);
      BalancedMatch(o, ts, FillStep(o, ts, m), before);
    }
  }

  lemma {:induction false} RunBalanced(market: MarketConfig, es: seq<Input>)
    requires AllAdmitted(es)
    ensures Wf(CreateState(market))
    ensures Balanced(RunLegs(CreateState(market), es))
  {
    GenesisWf(market);
    if es != [] {
      var n := |es| - 1;
      RunBalanced(market, es[..n]);
      EventBalanced(Run(CreateState(market), es[..n]), es[n].event, RunLegs(CreateState(market), es[..n]));
    }
  }

  lemma EventBalanced(s: State, e: Event, legs: seq<Leg>)
    requires Wf(s) && e.Admitted() && Balanced(legs)
    ensures Balanced(legs + EventLegs(s, e))
  {
    assert legs + [] == legs;
    if !AlreadyApplied(s, e) {
      match e.payload
      case PlaceOrder(o) =>
        if Refusal(s, o).None? {
          StartMatchingReady(s, o);
          BalancedMatch(o, e.ts, StartMatching(s, o), legs);
        }
      case IndexPriceUpdated(price, observerSeq) =>
        if s.lastObserverSeq < observerSeq {
          var s1 := MarkToMarket(s.(lastObserverSeq := observerSeq), price);
          BalancedForced(s1, legs, DoomedAmong(s1, s1.positions.keys, price), price);
        }
      case _ =>
    }
  }

  lemma {:induction false} SumOfLedgers(s: State, users: seq<string>, legs: seq<Leg>, m: int)
    requires Records(s, legs)
    ensures SumSizes(s, users) == SumSizeFor(users, legs)
    ensures SumEquity(s, users, m) == m * SumSizeFor(users, legs) - SumPaidFor(users, legs) + SumResidue(users, legs)
    ensures 2 * Abs(SumResidue(users, legs)) <= SumSlack(users, legs)
  {
    if users != [] {
      SumOfLedgers(s, users[1..], legs, m);
      var u := users[0];
      var p := s.PositionOf(u);
      assert ViewOf(p) == FoldFor(u, legs);
      LedgerRefinement(u, legs);
      EquityAlgebra(m, p.entryPrice, p.size, SumSizeFor(users[1..], legs));
    }
  }

  lemma EquityAlgebra(m: int, e: int, s: int, t: int)
    ensures (m - e) * s == m * s - s * e
    ensures m * (t + s) == m * t + m * s
  {
  }

  lemma NegatedProduct(m: int, a: int, b: int)
    requires a == -b
    ensures m * a == -(m * b)
  {
  }

  /** Zero sum: in every reachable state open sizes and the house's inventory cancel
      exactly, and at every price m the equity of all users and of the house is the
      accumulated rounding residue. */
  lemma MarketIsZeroSum(market: MarketConfig, es: seq<Input>, m: int)
    requires AllAdmitted(es)
    ensures Wf(CreateState(market))
    ensures var s, legs := Run(CreateState(market), es), RunLegs(CreateState(market), es);
      var users := s.positions.keys;
      && Traded(legs)
      && SumSizes(s, users) + HouseSize(legs) == 0
      && SumEquity(s, users, m) + (m * HouseSize(legs) - HouseCost(legs)) == SumResidue(users, legs)
      && 2 * Abs(SumResidue(users, legs)) <= SumSlack(users, legs)
  {
    RunRecords(market, es);
    RunBalanced(market, es);
    var s, legs := Run(CreateState(market), es), RunLegs(CreateState(market), es);
    var users := s.positions.keys;
    SumOfLedgers(s, users, legs, m);
    SumsExchange(users, legs);
    NegatedProduct(m, SumSizeFor(users, legs), HouseSize(legs));
  }

  /** With no remainder in any division the sum is zero. */
  lemma MarketIsExactlyZeroSum(market: MarketConfig, es: seq<Input>, m: int)
    requires AllAdmitted(es)
    requires Wf(CreateState(market))
    requires Traded(RunLegs(CreateState(market), es))
    requires forall u :: ExactFor(u, RunLegs(CreateState(market), es))
    ensures var s, legs := Run(CreateState(market), es), RunLegs(CreateState(market), es);
      SumEquity(s, s.positions.keys, m) + (m * HouseSize(legs) - HouseCost(legs)) == 0
  {
    MarketIsZeroSum(market, es, m);
    NoResidue(Run(CreateState(market), es).positions.keys, RunLegs(CreateState(market), es));
  }

  lemma {:induction false} NoResidue(users: seq<string>, legs: seq<Leg>)
    requires Traded(legs) && forall u :: ExactFor(u, legs)
    ensures SumResidue(users, legs) == 0
  {
    if users != [] {
      NoResidue(users[1..], legs);
      ExactLedger(users[0], legs);
    }
  }
}
