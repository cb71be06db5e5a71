/** At-least-once delivery: when a repeated event changes nothing. */
module Redelivery {
  import opened Money
  import opened States
  import opened JsMaps
  import opened EngineSpec
  import opened Invariants
  import opened Snapshots

  /** The state's own evidence that an event was seen: its command id is in the window, or
      it is a tick no newer than the newest one. */
  predicate Inert(s: State, e: Event)
  {
    || AlreadyApplied(s, e)
    || (e.commandId.None? && e.payload.IndexPriceUpdated? && e.payload.observerSeq <= s.lastObserverSeq)
  }

  /** An event is a no-op, up to stream position and count, exactly when it is inert. */
  lemma NoOpExactlyWhenInert(s: State, e: Event, id: StreamId)
    requires Wf(s) && e.Admitted()
    ensures Inert(s, e) <==> Alike(Step(s, e, id), s)
    ensures Inert(s, e) ==> Outputs(s, e) == []
  {
    if Inert(s, e) {
      InertKeepsState(s, e, id);
    } else {
      FreshEventShows(s, e, id);
    }
  }

  lemma InertKeepsState(s: State, e: Event, id: StreamId)
    requires Wf(s) && e.Admitted() && Inert(s, e)
    ensures Alike(Step(s, e, id), s) && Outputs(s, e) == []
  {
    if !AlreadyApplied(s, e) {
      assert Dispatch(s, e) == (s, []);
    }
  }

  /** Every event but a tick drafts something. */
  lemma SomethingDrafted(s: State, e: Event)
    requires Wf(s) && e.Admitted() && !e.payload.IndexPriceUpdated?
    ensures 0 < |Dispatch(s, e).1|
  {
    hide Refusal, Executed, MakersAccepted, ReportAll, Wf;
  }

  lemma FreshEventShows(s: State, e: Event, id: StreamId)
    requires Wf(s) && e.Admitted() && !Inert(s, e)
    ensures !Alike(Step(s, e, id), s)
  {
    var t := Step(s, e, id);
    DispatchBookkeeping(s, e);
    if e.commandId.Some? {
      NewestLast(s.appliedCommandIds, e.commandId.value);
      hide Dispatch, Wf, Newest;
      assert e.commandId.value in t.appliedCommandIds;
    } else if e.payload.IndexPriceUpdated? {
      hide Wf, Sweep, MarkToMarket;
      assert t.lastObserverSeq == e.payload.observerSeq;
    } else {
      SomethingDrafted(s, e);
      hide Dispatch, Wf;
      assert s.seqNo < t.seqNo;
    }
  }

  lemma NewestLast(ids: seq<string>, x: string)
    ensures Newest(ids + [x]) != [] && Newest(ids + [x])[|Newest(ids + [x])| - 1] == x
  {
  }

  /** Events that carry evidence: commands, and ticks with their observer sequence. */
  predicate Keyed(e: Event) { e.commandId.Some? || e.payload.IndexPriceUpdated? }

  /** A keyed event is inert right after it was processed. */
  lemma ProcessedIsInert(s: State, e: Event, id: StreamId)
    requires Wf(s) && e.Admitted() && Keyed(e)
    ensures Inert(Step(s, e, id), e)
  {
    if !AlreadyApplied(s, e) {
      DispatchBookkeeping(s, e);
      if e.commandId.Some? {
        NewestLast(s.appliedCommandIds, e.commandId.value);
        hide Dispatch, Wf, Newest;
      } else {
        hide Wf, Sweep, MarkToMarket;
      }
    }
  }

  /** The newest tick number never goes back. */
  lemma ObserverSeqMonotone(s: State, e: Event, id: StreamId)
    requires Wf(s) && e.Admitted()
    ensures s.lastObserverSeq <= Step(s, e, id).lastObserverSeq
  {
    DispatchBookkeeping(s, e);
    if e.payload.IndexPriceUpdated? {
      hide Wf, Sweep, MarkToMarket;
    } else {
      hide Wf, Dispatch;
    }
  }

  // ----- The window of applied command ids -----

  /** Command ids in the order they were applied. */
  ghost function AppliedIds(s: State, es: seq<Input>): seq<string>
    requires Wf(s) && AllAdmitted(es)
  {
    if es == [] then []
    else
      var n := |es| - 1;
      AppliedIds(s, es[..n]) + FreshId(Run(s, es[..n]), es[n].event)
  }

  lemma NewestOfNewest(h: seq<string>, x: string)
    ensures Newest(Newest(h) + [x]) == Newest(h + [x])
  {
  }

  lemma AppliedIdsUnfold(s: State, es: seq<Input>)
    requires Wf(s) && AllAdmitted(es) && es != []
    ensures var n := |es| - 1;
      AllAdmitted(es[..n]) &&
      AppliedIds(s, es) == AppliedIds(s, es[..n]) + FreshId(Run(s, es[..n]), es[n].event)
  {
  }

  /** The id a step adds to the window, if any. */
  function FreshId(s: State, e: Event): seq<string>
  {
    if e.commandId.Some? && !AlreadyApplied(s, e) then [e.commandId.value] else []
  }

  lemma StepWindow(s: State, e: Event, id: StreamId)
    requires Wf(s) && e.Admitted()
    ensures Step(s, e, id).appliedCommandIds ==
              if FreshId(s, e) == [] then s.appliedCommandIds else Newest(s.appliedCommandIds + FreshId(s, e))
  {
    DispatchBookkeeping(s, e);
    hide Dispatch, Wf, Newest;
  }

  /** The window is always the newest applied ids, at most 50 000 of them. */
  lemma {:induction false} WindowFollowsHistory(s: State, es: seq<Input>)
    requires Wf(s) && AllAdmitted(es) && s.appliedCommandIds == []
    ensures Run(s, es).appliedCommandIds == Newest(AppliedIds(s, es))
  {
    if es != [] {
      RunUnfold(s, es);
      AppliedIdsUnfold(s, es);
      hide Run, Step, Wf, AllAdmitted, AppliedIds, Newest;
      var n := |es| - 1;
      var t, e := Run(s, es[..n]), es[n].event;
      WindowFollowsHistory(s, es[..n]);
      StepWindow(t, e, es[n].id);
      assert AppliedIds(s, es[..n]) + [] == AppliedIds(s, es[..n]);
      if FreshId(t, e) != [] {
        NewestOfNewest(AppliedIds(s, es[..n]), FreshId(t, e)[0]);
      }
    }
  }

  /** From genesis: exactly the newest applied ids, never one twice. */
  lemma WindowIsNewest(market: MarketConfig, es: seq<Input>)
    requires AllAdmitted(es)
    ensures Wf(CreateState(market))
    ensures var w := Run(CreateState(market), es).appliedCommandIds;
      w == Newest(AppliedIds(CreateState(market), es)) && NoDuplicates(w) && |w| <= MAX_APPLIED_COMMANDS
  {
    GenesisWf(market);
    WindowFollowsHistory(CreateState(market), es);
    assert WindowOk(Run(CreateState(market), es));
  }

  /** Id x is among the last t ids of the window. */
  ghost predicate Recent(w: seq<string>, x: string, t: nat)
  {
    exists p :: 0 <= p < |w| && w[p] == x && |w| - p <= t
  }

  lemma RecentAges(w: seq<string>, x: string, t: nat, y: string)
    requires Recent(w, x, t) && t < MAX_APPLIED_COMMANDS && |w| <= MAX_APPLIED_COMMANDS
    ensures Recent(Newest(w + [y]), x, t + 1)
  {
    var p :| 0 <= p < |w| && w[p] == x && |w| - p <= t;
    var w' := Newest(w + [y]);
    var q := p - (|w| + 1 - |w'|);
    assert w'[q] == x;
  }

  /** After one more event an id is at most one place older. */
  lemma StepAges(s: State, e: Event, id: StreamId, x: string, t: nat)
    requires Wf(s) && e.Admitted() && Recent(s.appliedCommandIds, x, t) && t < MAX_APPLIED_COMMANDS
    ensures Recent(Step(s, e, id).appliedCommandIds, x, t + 1)
  {
    StepWindow(s, e, id);
    if e.commandId.Some? && !AlreadyApplied(s, e) {
      assert WindowOk(s);
      RecentAges(s.appliedCommandIds, x, t, e.commandId.value);
    }
    hide Step, Wf, Newest;
  }

  // ----- Duplicate deliveries -----

  predicate DeliveredIn(es: seq<Input>, e: Event) { exists j :: 0 <= j < |es| && es[j].event == e }

  /** The first delivery of each event. */
  function FirstDeliveries(es: seq<Input>): seq<Input>
  {
    if es == [] then []
    else
      var n := |es| - 1;
      FirstDeliveries(es[..n]) + (if DeliveredIn(es[..n], es[n].event) then [] else [es[n]])
  }

  lemma {:induction false} FirstDeliveriesAdmitted(es: seq<Input>)
    requires AllAdmitted(es)
    ensures AllAdmitted(FirstDeliveries(es))
  {
    if es != [] {
      FirstDeliveriesAdmitted(es[..|es| - 1]);
    }
  }

  /** Every repetition carries evidence, and a repeated command is still in the window. */
  ghost predicate RepeatsInsideWindow(s: State, es: seq<Input>)
    requires Wf(s) && AllAdmitted(es)
  {
    es == [] ||
    var n := |es| - 1;
    && RepeatsInsideWindow(s, es[..n])
    && (DeliveredIn(es[..n], es[n].event) ==>
          Keyed(es[n].event)
          && (es[n].event.commandId.Some? ==> AlreadyApplied(Run(s, es[..n]), es[n].event)))
  }

  lemma DeliveredSplit(es: seq<Input>, e: Event)
    requires DeliveredIn(es, e)
    ensures es != [] && (es[|es| - 1].event == e || DeliveredIn(es[..|es| - 1], e))
  {
    var j :| 0 <= j < |es| && es[j].event == e;
    if j < |es| - 1 { assert es[..|es| - 1][j].event == e; }
  }

  /** A delivered tick without command id stays stale. */
  lemma {:induction false} DeliveredTickIsStale(s: State, es: seq<Input>, e: Event)
    requires Wf(s) && AllAdmitted(es) && DeliveredIn(es, e)
    requires e.commandId.None? && e.payload.IndexPriceUpdated?
    ensures Inert(Run(s, es), e)
  {
    DeliveredSplit(es, e);
    RunUnfold(s, es);
    hide Run, Step, Wf, AllAdmitted, DeliveredIn;
    var n := |es| - 1;
    var t := Run(s, es[..n]);
    if es[n].event == e {
      ProcessedIsInert(t, e, es[n].id);
    } else {
      DeliveredTickIsStale(s, es[..n], e);
      ObserverSeqMonotone(t, es[n].event, es[n].id);
    }
  }

  /** Folding a sequence with duplicates is folding its first deliveries. */
  lemma {:induction false} DuplicatesChangeNothing(market: MarketConfig, es: seq<Input>)
    requires AllAdmitted(es)
    requires Wf(CreateState(market)) && RepeatsInsideWindow(CreateState(market), es)
    ensures AllAdmitted(FirstDeliveries(es))
    ensures Alike(Run(CreateState(market), es), Run(CreateState(market), FirstDeliveries(es)))
  {
    FirstDeliveriesAdmitted(es);
    if es != [] {
      var n := |es| - 1;
      var s0, e := CreateState(market), es[n].event;
      FirstDeliveriesAdmitted(es[..n]);
      DuplicatesChangeNothing(market, es[..n]);
      var s, t := Run(s0, es[..n]), Run(s0, FirstDeliveries(es[..n]));
      if DeliveredIn(es[..n], e) {
        if e.commandId.None? { DeliveredTickIsStale(s0, es[..n], e); }
        InertKeepsState(s, e, es[n].id);
        assert FirstDeliveries(es) == FirstDeliveries(es[..n]);
        hide Step, Wf;
        AlikeTransitive(Step(s, e, es[n].id), s, t);
      } else {
        StepAlike(s, t, e, es[n].id, es[n].id);
        RunLast(s0, FirstDeliveries(es[..n]), es[n]);
        hide Step, Wf, Alike;
      }
    }
  }

  lemma ProcessedInWindow(s: State, e: Event, id: StreamId)
    requires Wf(s) && e.Admitted() && e.commandId.Some?
    ensures e.commandId.value in Step(s, e, id).appliedCommandIds
  {
    ProcessedIsInert(s, e, id);
    hide Step, Wf;
  }

  /** A run of at most 50 000 inputs never loses a command id. */
  lemma {:induction false} ShortRunsForgetNothing(s: State, es: seq<Input>, e: Event)
    requires Wf(s) && AllAdmitted(es) && s.appliedCommandIds == [] && |es| <= MAX_APPLIED_COMMANDS
    requires DeliveredIn(es, e) && e.commandId.Some?
    ensures Recent(Run(s, es).appliedCommandIds, e.commandId.value, |es|)
  {
    DeliveredSplit(es, e);
    RunUnfold(s, es);
    ShortWindow(s, es);
    var n := |es| - 1;
    var rest, last := es[..n], es[n];
    var t := Run(s, rest);
    hide *;
    if last.event == e {
      ProcessedInWindow(t, e, last.id);
      InWindowIsRecent(Run(s, es).appliedCommandIds, e.commandId.value, |es|);
    } else {
      ShortRunsForgetNothing(s, rest, e);
      StepAges(t, last.event, last.id, e.commandId.value, n);
    }
  }

  lemma InWindowIsRecent(w: seq<string>, x: string, t: nat)
    requires x in w && |w| <= t
    ensures Recent(w, x, t)
  {
  }

  lemma {:induction false} ShortWindow(s: State, es: seq<Input>)
    requires Wf(s) && AllAdmitted(es) && s.appliedCommandIds == []
    ensures |Run(s, es).appliedCommandIds| <= |es|
  {
    if es != [] {
      var n := |es| - 1;
      ShortWindow(s, es[..n]);
      StepWindow(Run(s, es[..n]), es[n].event, es[n].id);
      hide Step, Wf;
    }
  }

  /** So at that length keyed duplicates are always inside the window. */
  lemma {:induction false} ShortRunsRepeatInsideWindow(market: MarketConfig, es: seq<Input>)
    requires AllAdmitted(es) && |es| <= MAX_APPLIED_COMMANDS
    requires forall i :: 0 <= i < |es| ==> Keyed(es[i].event)
    ensures Wf(CreateState(market)) && RepeatsInsideWindow(CreateState(market), es)
  {
    GenesisWf(market);
    if es != [] {
      var n := |es| - 1;
      var e := es[n].event;
      ShortRunsRepeatInsideWindow(market, es[..n]);
      if DeliveredIn(es[..n], e) && e.commandId.Some? {
        ShortRunsForgetNothing(CreateState(market), es[..n], e);
      }
      hide Wf;
    }
  }
}
