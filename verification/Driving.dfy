/** The consumer loop drives the recovery protocol: every turn of it is a sequence of
    protocol steps. */
module Driving {
  import opened Money
  import opened States
  import opened EngineSpec
  import opened Snapshots
  import opened Recovery
  import opened Consumers

  /** The protocol's system shows what the group holds of the entries below k. */
  ghost predicate Corresponds(sys: System, g: Group, k: nat)
  {
    && sys.process.Up? && |sys.log| == g.logged && sys.cursor == k && sys.deadLetters == g.deadLetters
    && forall i: nat :: i in sys.pending <==> i < k && i in Ids(g.pel)
  }

  /** The handler's answers: it resolves for what recovery has replayed, throws for what does
      not decode, and for the rest depends on publishing. */
  ghost predicate Answers(t: Turn, log: seq<Entry>, replayedThrough: StreamId)
  {
    forall i: nat :: i < |log| ==>
      && (!IdLess(replayedThrough, log[i].id) ==> t.resolves(i))
      && (IdLess(replayedThrough, log[i].id) && log[i].event.None? ==> !t.resolves(i))
  }

  /** The protocol has reached sys, on a log with distinct command ids. */
  ghost predicate At(market: MarketConfig, history: seq<Action>, sys: System, log: seq<Entry>, replayedThrough: StreamId)
  {
    && Reaches(market, history, sys) && KeyedLog(sys) && sys.log == log
    && sys.process.Up? && sys.process.replayedThrough == replayedThrough
  }

  lemma AckedIsResolved(t: Turn, sys: System, i: nat)
    requires sys.process.Up? && Answers(t, sys.log, sys.process.replayedThrough) && i < |sys.log|
    ensures Acked(sys.process, sys.log[i], t.resolves(i)) <==> t.resolves(i)
  {
  }

  /** The new pending set and process after the handler. */
  lemma Handled(sys: System, i: nat, published: bool)
    requires sys.process.Up? && i < |sys.log| && Decodable(sys.log)
    requires Positive(sys.process.s.bids) && Positive(sys.process.s.asks)
    ensures var n := Handle(sys, i, published);
      && n.log == sys.log && n.cursor == sys.cursor && n.deadLetters == sys.deadLetters
      && n.process.Up? && n.process.replayedThrough == sys.process.replayedThrough
      && n.pending == (if Acked(sys.process, sys.log[i], published) then sys.pending - {i} else sys.pending + {i})
  {
    hide Step, IdLess, Acked;
  }

  lemma WithoutIds(pel: seq<PendingEntry>, gone: nat, i: nat)
    requires Ascending(pel)
    ensures i in Ids(Without(pel, gone)) <==> i in Ids(pel) && i != gone
  {
    if i in Ids(pel) && i != gone { WithoutKeepsOthers(pel, gone, i); }
    WithoutMembers(pel, gone);
    hide Without, Ascending;
    if i in Ids(Without(pel, gone)) {
      var k := PendingEntryOf(Without(pel, gone), i);
      var x := Without(pel, gone)[k];
      assert x in Without(pel, gone);
      var j :| 0 <= j < |pel| && pel[j] == x;
      assert Ids(pel)[j] == i;
    }
  }

  lemma WithoutAll(g: Group, gone: nat)
    requires Conserved(g)
    ensures forall i: nat :: i in Ids(Without(g.pel, gone)) <==> i in Ids(g.pel) && i != gone
  {
    ConservedCursor(g);
    forall i: nat ensures i in Ids(Without(g.pel, gone)) <==> i in Ids(g.pel) && i != gone { WithoutIds(g.pel, gone, i); }
  }

  lemma Bounds(market: MarketConfig, sys: System)
    requires Inv(market, sys) && sys.process.Up?
    ensures sys.cursor <= |sys.log| && (forall i :: i in sys.pending ==> i < sys.cursor)
    ensures Decodable(sys.log) && Positive(sys.process.s.bids) && Positive(sys.process.s.asks)
  {
    InvParts(market, sys);
  }

  /** One protocol step. */
  lemma Longer(market: MarketConfig, history: seq<Action>, sys: System, a: Action)
    requires Reaches(market, history, sys) && Enabled(sys, a)
    ensures Inv(market, sys) && Reaches(market, history + [a], Next(market, sys, a)) && history <= history + [a]
  {
    hide *;
    ExecutionsExtend(market, history, sys, a);
  }

  lemma Redelivers(market: MarketConfig, history: seq<Action>, sys: System, i: nat, published: bool)
    returns (after: System)
    requires Reaches(market, history, sys) && KeyedLog(sys) && sys.process.Up?
    requires i in sys.pending && sys.cursor <= i + MAX_APPLIED_COMMANDS
    ensures i < sys.cursor <= |sys.log|
    ensures Reaches(market, history + [Redeliver(i, published)], after)
    ensures after.log == sys.log && after.cursor == sys.cursor && after.deadLetters == sys.deadLetters
    ensures after.process.Up? && after.process.replayedThrough == sys.process.replayedThrough
    ensures after.pending == (if Acked(sys.process, sys.log[i], published) then sys.pending - {i} else sys.pending + {i})
  {
    ReachableInv(market, history, sys);
    Bounds(market, sys);
    RedeliverEnabled(market, sys, i, published);
    hide *;
    Longer(market, history, sys, Redeliver(i, published));
    NextRedeliver(market, sys, i, published);
    Handled(sys, i, published);
    after := Next(market, sys, Redeliver(i, published));
  }

  lemma RedeliverEnabled(market: MarketConfig, sys: System, i: nat, published: bool)
    requires Inv(market, sys) && KeyedLog(sys) && sys.process.Up?
    requires i in sys.pending && sys.cursor <= i + MAX_APPLIED_COMMANDS
    ensures Enabled(sys, Redeliver(i, published))
  {
    hide Inv, InsideWindow, KeyedEntries, DistinctCommands;
    RecentRedeliveryIsInsideWindow(market, sys, i);
  }

  lemma Delivers(market: MarketConfig, history: seq<Action>, sys: System, published: bool) returns (after: System)
    requires Reaches(market, history, sys) && sys.process.Up? && sys.cursor < |sys.log|
    ensures Reaches(market, history + [Deliver(published)], after)
    ensures after.log == sys.log && after.cursor == sys.cursor + 1 && after.deadLetters == sys.deadLetters
    ensures after.process.Up? && after.process.replayedThrough == sys.process.replayedThrough
    ensures var k := sys.cursor;
      after.pending == (if Acked(sys.process, sys.log[k], published) then sys.pending - {k} else sys.pending + {k})
  {
    ReachableInv(market, history, sys);
    Bounds(market, sys);
    assert Enabled(sys, Deliver(published));
    hide *;
    Longer(market, history, sys, Deliver(published));
    NextDeliver(market, sys, published);
    Handled(sys, sys.cursor, published);
    after := Next(market, sys, Deliver(published));
  }

  lemma GivesUp(market: MarketConfig, history: seq<Action>, sys: System, i: nat) returns (after: System)
    requires Reaches(market, history, sys) && sys.process.Up? && i in sys.pending
    ensures Reaches(market, history + [DeadLetter(i)], after)
    ensures after == sys.(pending := sys.pending - {i}, deadLetters := sys.deadLetters + [i])
  {
    ReachableInv(market, history, sys);
    Longer(market, history, sys, DeadLetter(i));
    after := Next(market, sys, DeadLetter(i));
    hide Inv, Reaches;
  }

  /** A claimed message: redelivered, dead-lettered, or not dealt with. */
  lemma ClaimedStep(market: MarketConfig, history: seq<Action>, sys: System, g: Group, k: nat, msg: Message, o: Options,
                    t: Turn)
    returns (longer: seq<Action>, after: System)
    requires sys.process.Up? && At(market, history, sys, sys.log, sys.process.replayedThrough)
    requires Corresponds(sys, g, k) && Conserved(g) && Answers(t, sys.log, sys.process.replayedThrough)
    requires msg.id in Ids(g.pel) && msg.id < k <= msg.id + MAX_APPLIED_COMMANDS
    ensures history <= longer && At(market, longer, after, sys.log, sys.process.replayedThrough)
    ensures Corresponds(after, Dispatched(g, msg, o, t).group, k)
  {
    hide Reaches, KeyedEntries, DistinctCommands, Answers, Conserved, Ids, Without, Acked;
    longer, after := history, sys;
    var i := msg.id;
    WithoutAll(g, i);
    if msg.deliveries <= o.maxDeliveries {
      after := Redelivers(market, history, sys, i, t.resolves(i));
      AckedIsResolved(t, sys, i);
      longer := history + [Redeliver(i, t.resolves(i))];
    } else if t.dlq(i).Done? {
      after := GivesUp(market, history, sys, i);
      longer := history + [DeadLetter(i)];
    }
  }

  /** A new message: delivered. */
  lemma NewStep(market: MarketConfig, history: seq<Action>, sys: System, g: Group, o: Options, t: Turn)
    returns (longer: seq<Action>, after: System)
    requires sys.process.Up? && At(market, history, sys, sys.log, sys.process.replayedThrough)
    requires Corresponds(sys, g, sys.cursor) && Conserved(g) && Answers(t, sys.log, sys.process.replayedThrough)
    requires 1 <= o.maxDeliveries && sys.cursor < |sys.log| && sys.cursor in Ids(g.pel)
    ensures history <= longer && At(market, longer, after, sys.log, sys.process.replayedThrough)
    ensures Corresponds(after, Dispatched(g, Message(sys.cursor, 1), o, t).group, sys.cursor + 1)
    ensures Dispatched(g, Message(sys.cursor, 1), o, t).completed
  {
    hide Reaches, KeyedEntries, DistinctCommands, Answers, Conserved, Ids, Without, Acked;
    var k := sys.cursor;
    WithoutAll(g, k);
    after := Delivers(market, history, sys, t.resolves(k));
    AckedIsResolved(t, sys, k);
    longer := history + [Deliver(t.resolves(k))];
  }

  // ----- Batches -----

  ghost predicate Recently(msgs: seq<Message>, k: nat)
  {
    forall i :: 0 <= i < |msgs| ==> msgs[i].id < k <= msgs[i].id + MAX_APPLIED_COMMANDS
  }

  lemma {:induction false} ClaimedBatch(market: MarketConfig, history: seq<Action>, sys: System, g: Group, k: nat,
                                        msgs: seq<Message>, o: Options, t: Turn)
    returns (longer: seq<Action>, after: System)
    requires sys.process.Up? && At(market, history, sys, sys.log, sys.process.replayedThrough)
    requires Corresponds(sys, g, k) && Conserved(g) && Answers(t, sys.log, sys.process.replayedThrough)
    requires InFlight(g, msgs) && Recently(msgs, k)
    ensures history <= longer && At(market, longer, after, sys.log, sys.process.replayedThrough)
    ensures Corresponds(after, DispatchAll(g, msgs, o, t).group, k)
    decreases |msgs|
  {
    longer, after := history, sys;
    if msgs != [] {
      FirstInFlight(g, msgs);
      DispatchedConserves(g, msgs[0], o, t);
      StillInFlight(g, msgs, o, t);
      assert Recently(msgs[1..], k);
      hide Reaches, KeyedLog, Answers, Conserved, Ids, Dispatched, InFlight, Corresponds;
      longer, after := ClaimedStep(market, history, sys, g, k, msgs[0], o, t);
      var d := Dispatched(g, msgs[0], o, t);
      if d.completed {
        longer, after := ClaimedBatch(market, longer, after, d.group, k, msgs[1..], o, t);
      }
    }
  }

  lemma NewHead(k: nat, n: nat)
    requires n != 0
    ensures var msgs := NewMessages(k, n);
      msgs != [] && msgs[0] == Message(k, 1) && msgs[1..] == NewMessages(k + 1, n - 1)
  {
  }

  lemma FirstInFlight(g: Group, msgs: seq<Message>)
    requires InFlight(g, msgs) && msgs != []
    ensures msgs[0].id in Ids(g.pel)
  {
  }

  lemma {:induction false} NewBatch(market: MarketConfig, history: seq<Action>, sys: System, g: Group, n: nat,
                                    o: Options, t: Turn)
    returns (longer: seq<Action>, after: System)
    requires sys.process.Up? && At(market, history, sys, sys.log, sys.process.replayedThrough)
    requires Corresponds(sys, g, sys.cursor) && Conserved(g) && Answers(t, sys.log, sys.process.replayedThrough)
    requires 1 <= o.maxDeliveries && sys.cursor + n <= |sys.log| && InFlight(g, NewMessages(sys.cursor, n))
    ensures history <= longer && At(market, longer, after, sys.log, sys.process.replayedThrough)
    ensures Corresponds(after, DispatchAll(g, NewMessages(sys.cursor, n), o, t).group, sys.cursor + n)
    decreases n
  {
    hide *;
    longer, after := history, sys;
    if n == 0 {
      NoMessages(g, sys.cursor, o, t);
    } else {
      var k, msgs := sys.cursor, NewMessages(sys.cursor, n);
      NewHead(k, n);
      FirstInFlight(g, msgs);
      DispatchedConserves(g, msgs[0], o, t);
      StillInFlight(g, msgs, o, t);
      longer, after := NewStep(market, history, sys, g, o, t);
      var d := Dispatched(g, msgs[0], o, t);
      DispatchTail(g, msgs, o, t);
      CorrespondsCursor(after, d.group, k + 1);
      AtFields(market, longer, after, sys.log, sys.process.replayedThrough);
      longer, after := NewBatch(market, longer, after, d.group, n - 1, o, t);
    }
  }

  lemma NoMessages(g: Group, k: nat, o: Options, t: Turn)
    ensures DispatchAll(g, NewMessages(k, 0), o, t) == Outcome(g, true)
  {
  }

  lemma DispatchTail(g: Group, msgs: seq<Message>, o: Options, t: Turn)
    requires msgs != [] && Dispatched(g, msgs[0], o, t).completed
    ensures DispatchAll(g, msgs, o, t) == DispatchAll(Dispatched(g, msgs[0], o, t).group, msgs[1..], o, t)
  {
    hide Dispatched;
  }

  lemma AtFields(market: MarketConfig, history: seq<Action>, sys: System, log: seq<Entry>, replayedThrough: StreamId)
    requires At(market, history, sys, log, replayedThrough)
    ensures sys.log == log && sys.process.Up? && sys.process.replayedThrough == replayedThrough
    ensures Reaches(market, history, sys) && KeyedLog(sys)
  {
    hide Reaches, KeyedLog;
  }

  lemma CorrespondsCursor(sys: System, g: Group, k: nat)
    requires Corresponds(sys, g, k)
    ensures sys.cursor == k && |sys.log| == g.logged
  {
  }

  // ----- A turn -----

  lemma ClaimCorresponds(sys: System, g: Group, o: Options, t: Turn)
    requires Corresponds(sys, g, g.cursor)
    ensures Corresponds(sys, AfterClaim(g, o, t), g.cursor)
  {
    RedeliveredIds(g.pel, ClaimedIn(g, o, t), t.claimTime);
    hide Redelivered, Ids, Claimed;
  }

  lemma ReadCorresponds(sys: System, g: Group, o: Options, now: nat)
    requires Corresponds(sys, g, g.cursor) && g.cursor <= g.logged
    ensures Corresponds(sys, AfterRead(g, o, now), g.cursor)
  {
    var more := NewEntries(g.cursor, NewCount(g, o), now);
    IdsConcat(g.pel, more);
    forall i: nat | i in Ids(more) ensures g.cursor <= i {
      var k := PendingEntryOf(more, i);
    }
    hide Ids, NewEntries, NewCount;
  }

  /** Nothing pending is more than 50 000 entries old. */
  ghost predicate Prompt(g: Group)
  {
    forall i: nat :: i in Ids(g.pel) ==> g.cursor <= i + MAX_APPLIED_COMMANDS
  }

  lemma ReclaimedRecently(g: Group, o: Options, t: Turn)
    requires Conserved(g) && Prompt(g)
    ensures Recently(Reclaimed(g, o, t), g.cursor)
  {
    var msgs := Reclaimed(g, o, t);
    ReclaimedBelow(g, o, t, msgs);
    ClaimConserves(g, o, t);
    RedeliveredIds(g.pel, ClaimedIn(g, o, t), t.claimTime);
    hide Conserved, Redelivered, Ids, Claimed, Reclaimed;
  }

  /** Claiming and dispatching what was abandoned. */
  lemma ReclaimIsAnExecution(market: MarketConfig, history: seq<Action>, sys: System, g: Group, o: Options, t: Turn)
    returns (longer: seq<Action>, after: System)
    requires sys.process.Up? && At(market, history, sys, sys.log, sys.process.replayedThrough)
    requires Corresponds(sys, g, g.cursor) && Conserved(g) && Answers(t, sys.log, sys.process.replayedThrough) && Prompt(g)
    ensures history <= longer && At(market, longer, after, sys.log, sys.process.replayedThrough)
    ensures var r := AfterReclaim(g, o, t).group; Corresponds(after, r, r.cursor) && Conserved(r)
  {
    longer, after := history, sys;
    ReclaimConserves(g, o, t);
    ClaimConserves(g, o, t);
    ClaimCorresponds(sys, g, o, t);
    ReclaimedRecently(g, o, t);
    DispatchKeepsCursor(AfterClaim(g, o, t), Reclaimed(g, o, t), o, t);
    assert AfterClaim(g, o, t).cursor == g.cursor;
    hide At, Answers, Conserved, DispatchAll, Corresponds, AfterClaim, Reclaimed, InFlight, Recently;
    if t.claims && t.claimReplies {
      longer, after := ClaimedBatch(market, history, sys, AfterClaim(g, o, t), g.cursor, Reclaimed(g, o, t), o, t);
    }
  }

  /** Reading and dispatching what is new. */
  lemma ReadIsAnExecution(market: MarketConfig, history: seq<Action>, sys: System, g: Group, o: Options, t: Turn)
    returns (longer: seq<Action>, after: System)
    requires sys.process.Up? && At(market, history, sys, sys.log, sys.process.replayedThrough)
    requires Corresponds(sys, g, g.cursor) && Conserved(g) && Answers(t, sys.log, sys.process.replayedThrough)
    requires 1 <= o.maxDeliveries
    ensures g.cursor <= g.logged
    ensures history <= longer && At(market, longer, after, sys.log, sys.process.replayedThrough)
    ensures var r := AfterNew(g, o, t).group; Corresponds(after, r, r.cursor)
  {
    longer, after := history, sys;
    ConservedCursor(g);
    if t.readOk {
      var n, h := NewCount(g, o), AfterRead(g, o, t.readTime);
      ReadConserves(g, o, t.readTime);
      ReadInFlight(g, o, t.readTime);
      ReadCorresponds(sys, g, o, t.readTime);
      CorrespondsCursor(sys, g, g.cursor);
      DispatchKeepsCursor(h, NewMessages(g.cursor, n), o, t);
      assert h.cursor == g.cursor + n <= g.logged;
      hide At, Answers, Conserved, DispatchAll, Corresponds, AfterRead, NewMessages, InFlight;
      longer, after := NewBatch(market, history, sys, h, n, o, t);
    }
  }

  lemma AnswersShorter(t: Turn, log: seq<Entry>, n: nat, replayedThrough: StreamId)
    requires Answers(t, log, replayedThrough) && n <= |log|
    ensures Answers(t, log[..n], replayedThrough)
  {
  }

  /** Entries appended one after the other. */
  lemma {:induction false} Appends(market: MarketConfig, history: seq<Action>, sys: System, log: seq<Entry>, n: nat)
    returns (longer: seq<Action>)
    requires Reaches(market, history, sys) && LogOk(log) && |sys.log| <= n <= |log| && sys.log == log[..|sys.log|]
    ensures history <= longer && Reaches(market, longer, sys.(log := log[..n]))
    decreases n
  {
    hide LogOk, Reaches, Inv;
    if n == |sys.log| {
      longer := history;
      assert sys.(log := log[..n]) == sys;
    } else {
      longer := Appends(market, history, sys, log, n - 1);
      var before, a := sys.(log := log[..n - 1]), Append(log[n - 1]);
      assert log[..n] == log[..n - 1] + [log[n - 1]];
      PrefixOk(log, n);
      assert Enabled(before, a);
      Longer(market, longer, before, a);
      longer := longer + [a];
    }
  }

  lemma KeyedShorter(sys: System, log: seq<Entry>, n: nat)
    requires KeyedEntries(log) && DistinctCommands(log) && n <= |log| && sys.log == log[..n]
    ensures KeyedLog(sys)
  {
    KeyedPrefix(log, n);
  }

  /** One turn of the consumer loop. */
  lemma TurnIsAnExecution(market: MarketConfig, history: seq<Action>, sys: System, g: Group, log: seq<Entry>, o: Options,
                          t: Turn)
    returns (longer: seq<Action>, after: System)
    requires LogOk(log) && KeyedEntries(log) && DistinctCommands(log)
    requires sys.process.Up? && Reaches(market, history, sys) && |sys.log| <= |log| && sys.log == log[..|sys.log|]
    requires Corresponds(sys, g, g.cursor) && Conserved(g) && Prompt(g) && 1 <= o.maxDeliveries
    requires g.cursor <= g.logged && g.logged + t.appended <= |log| && Answers(t, log, sys.process.replayedThrough)
    ensures history <= longer && Conserved(AfterTurn(g, o, t))
    ensures var r := AfterTurn(g, o, t);
      r.logged <= |log| && At(market, longer, after, log[..r.logged], sys.process.replayedThrough)
      && Corresponds(after, r, r.cursor)
  {
    hide LogOk, KeyedEntries, DistinctCommands, Reaches, Answers, Conserved, Prompt, AfterReclaim, Corresponds, AfterNew,
      KeyedLog, Appended;
    TurnConserves(g, o, t);
    AppendConserves(g, t.appended);
    CorrespondsCursor(sys, g, g.cursor);
    var g0, n := Appended(g, t.appended), g.logged + t.appended;
    var grown := sys.(log := log[..n]);
    GrownCorresponds(sys, g, log, t.appended);
    AnswersShorter(t, log, n, sys.process.replayedThrough);
    KeyedShorter(grown, log, n);
    longer := Appends(market, history, sys, log, n);
    ReclaimKeepsLogged(g0, o, t);
    var d := AfterReclaim(g0, o, t);
    longer, after := ReclaimIsAnExecution(market, longer, grown, g0, o, t);
    if d.completed {
      ReadKeepsLogged(d.group, o, t);
      longer, after := ReadIsAnExecution(market, longer, after, d.group, o, t);
    }
  }

  lemma GrownCorresponds(sys: System, g: Group, log: seq<Entry>, appended: nat)
    requires Corresponds(sys, g, g.cursor) && Prompt(g) && g.logged + appended <= |log|
    ensures var g0 := Appended(g, appended);
      Corresponds(sys.(log := log[..g.logged + appended]), g0, g0.cursor) && Prompt(g0) && g0.logged == g.logged + appended
  {
    hide Ids;
  }

  lemma ReclaimKeepsLogged(g: Group, o: Options, t: Turn)
    ensures AfterReclaim(g, o, t).group.logged == g.logged
  {
    DispatchKeepsCursor(AfterClaim(g, o, t), Reclaimed(g, o, t), o, t);
    hide DispatchAll, Reclaimed;
  }

  lemma ReadKeepsLogged(g: Group, o: Options, t: Turn)
    requires Conserved(g)
    ensures g.cursor <= g.logged && AfterNew(g, o, t).group.logged == g.logged
  {
    ConservedCursor(g);
    DispatchKeepsCursor(AfterRead(g, o, t.readTime), NewMessages(g.cursor, NewCount(g, o)), o, t);
  }

  // ----- A run -----

  /** The turns take their entries from this log, the handler answers as described, and
      nothing pending is left too old. */
  ghost predicate Driven(g: Group, o: Options, ts: seq<Turn>, log: seq<Entry>, replayedThrough: StreamId)
    requires Conserved(g)
    decreases |ts|
  {
    ts != [] ==>
      && Answers(ts[0], log, replayedThrough) && Prompt(g) && g.logged + ts[0].appended <= |log|
      && (TurnConserves(g, o, ts[0]); Driven(AfterTurn(g, o, ts[0]), o, ts[1..], log, replayedThrough))
  }

  /** Any number of turns of the consumer loop is an execution of the protocol, so what is
      proved of every execution holds of the engine driven by the loop. */
  lemma {:induction false} ConsumerRunIsAnExecution(market: MarketConfig, history: seq<Action>, sys: System, g: Group,
                                                    log: seq<Entry>, o: Options, ts: seq<Turn>)
    returns (longer: seq<Action>, after: System)
    requires LogOk(log) && KeyedEntries(log) && DistinctCommands(log)
    requires sys.process.Up? && Reaches(market, history, sys) && |sys.log| <= |log| && sys.log == log[..|sys.log|]
    requires Corresponds(sys, g, g.cursor) && Conserved(g) && 1 <= o.maxDeliveries
    requires Driven(g, o, ts, log, sys.process.replayedThrough)
    ensures g.cursor <= g.logged && history <= longer && Reaches(market, longer, after)
    ensures var r := AfterTurns(g, o, ts); Corresponds(after, r, r.cursor) && after.log <= log
    decreases |ts|
  {
    longer, after := history, sys;
    ConservedCursor(g);
    if ts != [] {
      CorrespondsCursor(sys, g, g.cursor);
      hide LogOk, KeyedEntries, DistinctCommands, Reaches, Conserved, Corresponds, AfterTurn, Prompt, Answers;
      longer, after := TurnIsAnExecution(market, history, sys, g, log, o, ts[0]);
      longer, after := ConsumerRunIsAnExecution(market, longer, after, AfterTurn(g, o, ts[0]), log, o, ts[1..]);
    }
  }

  /** A first start, with nothing on the log. */
  lemma FirstStart(market: MarketConfig) returns (sys: System)
    ensures Reaches(market, [Start(None)], sys) && Corresponds(sys, EMPTY, 0)
    ensures sys.log == [] && sys.process.Up? && sys.process.replayedThrough == ZERO_ID
  {
    var a: Action := Start(None);
    assert LogOk(INITIAL.log);
    assert Reaches(market, [], INITIAL) && Enabled(INITIAL, a);
    assert [] + [a] == [a];
    Longer(market, [], INITIAL, a);
    NextStart(market, INITIAL, None);
    RecoveryReachesTheLog(market, INITIAL, None);
    RecoveredPosition(market, INITIAL, None);
    sys := Next(market, INITIAL, a);
    hide Inv, Reaches, Recovered, Next;
  }

  /** From a first start, whatever the turns of the loop bring: the engine's state is the
      genesis fold of a log prefix that holds every entry the group has handed out. */
  lemma DrivenEngineFoldsTheLog(market: MarketConfig, log: seq<Entry>, o: Options, ts: seq<Turn>)
    returns (sys: System, k: nat)
    requires LogOk(log) && KeyedEntries(log) && DistinctCommands(log) && 1 <= o.maxDeliveries
    requires Conserved(EMPTY) && Driven(EMPTY, o, ts, log, ZERO_ID)
    ensures var g := AfterTurns(EMPTY, o, ts);
      && Corresponds(sys, g, g.cursor) && sys.log <= log
      && g.cursor <= k <= |sys.log| && Decodable(sys.log[..k])
      && Alike(sys.process.s, Genesis(market, sys.log[..k]))
  {
    hide LogOk, KeyedEntries, DistinctCommands, Reaches, Conserved, Driven, AfterTurns, Decodable, Genesis, Alike;
    sys := FirstStart(market);
    var history: seq<Action>;
    history, sys := ConsumerRunIsAnExecution(market, [Start(None)], sys, EMPTY, log, o, ts);
    StateIsAFoldOfTheLog(market, history, sys);
    k :| sys.cursor <= k <= |sys.log| && Decodable(sys.log[..k]) && Alike(sys.process.s, Genesis(market, sys.log[..k]));
  }
}
