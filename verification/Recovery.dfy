/** The engine process around its input stream, as a step system: an append-only log, a
    consumer group with cursor and pending entries, snapshot files, crashes, recovery by
    snapshot plus replay, and live handling with redelivery. */
module Recovery {
  import opened Money
  import opened States
  import opened JsMaps
  import opened EngineSpec
  import opened Invariants
  import opened Snapshots
  import opened SnapshotFiles
  import opened Redelivery

  /** A stream entry; None is one the decoder throws on. */
  datatype Entry = Entry(id: StreamId, event: Option<Event>)

  /** compareStreamIds(a, b) < 0 */
  predicate IdLess(a: StreamId, b: StreamId) { a.ms < b.ms || (a.ms == b.ms && a.n < b.n) }

  predicate Decodable(entries: seq<Entry>)
  {
    forall i :: 0 <= i < |entries| && entries[i].event.Some? ==> entries[i].event.value.Admitted()
  }

  /** Ids ascend from above "0", and what decodes meets the schema. */
  ghost predicate LogOk(log: seq<Entry>)
  {
    && Decodable(log)
    && (forall i :: 0 <= i < |log| ==> IdLess(ZERO_ID, log[i].id))
    && (forall i, j :: 0 <= i < j < |log| ==> IdLess(log[i].id, log[j].id))
  }

  /** Id of the k-th entry, or "0" before the first. */
  function IdAt(log: seq<Entry>, k: nat): StreamId
    requires k <= |log|
  {
    if k == 0 then ZERO_ID else log[k - 1].id
  }

  /** The entries strictly after an id. */
  function After(log: seq<Entry>, id: StreamId): seq<Entry>
  {
    if log == [] || IdLess(id, log[0].id) then log else After(log[1..], id)
  }

  // ----- Replay -----

  /** One iteration of the replay loop. */
  function ReplayStep(s: State, x: Entry): State
    requires Positive(s.bids) && Positive(s.asks) && (x.event.Some? ==> x.event.value.Admitted())
  {
    if x.event.Some? then Step(s, x.event.value, x.id) else s.(lastInputId := x.id)
  }

  lemma ReplayStepWf(s: State, x: Entry)
    requires Wf(s) && (x.event.Some? ==> x.event.value.Admitted())
    ensures Wf(ReplayStep(s, x))
  {
    if x.event.Some? { StepWf(s, x.event.value, x.id); } else { SameAccountsOk(s, ReplayStep(s, x)); }
  }

  ghost function Replay(s: State, entries: seq<Entry>): (t: State)
    requires Wf(s) && Decodable(entries)
    ensures Wf(t)
  {
    if entries == [] then s
    else
      var n := |entries| - 1;
      ReplayStepWf(Replay(s, entries[..n]), entries[n]);
      ReplayStep(Replay(s, entries[..n]), entries[n])
  }

  /** The genesis fold of a log. */
  ghost function Genesis(market: MarketConfig, log: seq<Entry>): (t: State)
    requires Decodable(log)
    ensures Wf(t)
  {
    GenesisWf(market);
    Replay(CreateState(market), log)
  }

  lemma ReplayLast(s: State, entries: seq<Entry>, x: Entry)
    requires Wf(s) && Decodable(entries) && (x.event.Some? ==> x.event.value.Admitted())
    ensures Decodable(entries + [x]) && Wf(Replay(s, entries))
    ensures Replay(s, entries + [x]) == ReplayStep(Replay(s, entries), x)
  {
    var all := entries + [x];
    assert all[..|all| - 1] == entries;
  }

  lemma ReplayStepAlike(s: State, t: State, x: Entry)
    requires Wf(s) && Wf(t) && Alike(s, t) && (x.event.Some? ==> x.event.value.Admitted())
    ensures Alike(ReplayStep(s, x), ReplayStep(t, x))
  {
    if x.event.Some? { StepAlike(s, t, x.event.value, x.id, x.id); }
    hide Step, Wf;
  }

  lemma DecodableParts(entries: seq<Entry>, k: nat)
    requires Decodable(entries) && k <= |entries|
    ensures Decodable(entries[..k]) && Decodable(entries[k..])
    ensures k < |entries| && entries[k].event.Some? ==> entries[k].event.value.Admitted()
    ensures entries[..k] + entries[k..] == entries
  {
  }

  /** One turn of the replay loop. */
  lemma ReplayNext(s: State, entries: seq<Entry>, i: nat)
    requires Wf(s) && Decodable(entries) && i < |entries|
    ensures Decodable(entries[..i]) && Decodable(entries[..i + 1])
    ensures entries[i].event.Some? ==> entries[i].event.value.Admitted()
    ensures var t := Replay(s, entries[..i]);
      Positive(t.bids) && Positive(t.asks) && Replay(s, entries[..i + 1]) == ReplayStep(t, entries[i])
  {
    DecodableParts(entries, i);
    DecodableParts(entries, i + 1);
    assert entries[..i + 1] == entries[..i] + [entries[i]];
    ReplayLast(s, entries[..i], entries[i]);
    WfPositive(Replay(s, entries[..i]));
    hide Wf, Replay, ReplayStep, Decodable;
  }

  lemma {:induction false} ReplayAlike(s: State, t: State, entries: seq<Entry>)
    requires Wf(s) && Wf(t) && Alike(s, t) && Decodable(entries)
    ensures Alike(Replay(s, entries), Replay(t, entries))
  {
    if entries != [] {
      var n := |entries| - 1;
      DecodableParts(entries, n);
      ReplayAlike(s, t, entries[..n]);
      ReplayStepAlike(Replay(s, entries[..n]), Replay(t, entries[..n]), entries[n]);
      hide ReplayStep, Wf, Alike, Decodable;
    }
  }

  lemma {:induction false} ReplayConcat(s: State, a: seq<Entry>, b: seq<Entry>)
    requires Wf(s) && Decodable(a) && Decodable(b)
    ensures Decodable(a + b) && Replay(s, a + b) == Replay(Replay(s, a), b)
  {
    if b == [] {
      assert a + b == a;
    } else {
      var n := |b| - 1;
      var rest, x := b[..n], b[n];
      DecodableParts(b, n);
      assert b == rest + [x] && a + b == a + rest + [x];
      hide ReplayStep, Wf, Replay, Decodable;
      ReplayConcat(s, a, rest);
      ReplayLast(s, a + rest, x);
      ReplayLast(Replay(s, a), rest, x);
    }
  }

  /** Every entry of the list is either undecodable or inert in s. */
  ghost predicate AllInert(s: State, entries: seq<Entry>)
  {
    forall i :: 0 <= i < |entries| && entries[i].event.Some? ==> Inert(s, entries[i].event.value)
  }

  /** Replaying entries that are already reflected changes nothing. */
  lemma {:induction false} ReplayInert(s: State, entries: seq<Entry>)
    requires Wf(s) && Decodable(entries) && AllInert(s, entries)
    ensures Alike(Replay(s, entries), s)
  {
    if entries != [] {
      var n := |entries| - 1;
      DecodableParts(entries, n);
      ReplayInert(s, entries[..n]);
      var t, x := Replay(s, entries[..n]), entries[n];
      if x.event.Some? {
        assert Inert(t, x.event.value);
        InertKeepsState(t, x.event.value, x.id);
      }
      hide Step, Wf, Inert, Decodable;
      AlikeTransitive(ReplayStep(t, x), t, s);
    }
  }

  // ----- A state that reflects a log prefix -----

  /** s is the genesis fold of the first k entries, stands at the id of the j-th, and would
      treat the entries in between as repetitions. */
  ghost predicate Tracks(market: MarketConfig, log: seq<Entry>, s: State, k: nat, j: nat)
    requires LogOk(log)
  {
    && j <= k <= |log|
    && Wf(s)
    && Decodable(log[..k]) && Alike(s, Genesis(market, log[..k]))
    && s.lastInputId == IdAt(log, j)
    && AllInert(s, log[j..k])
  }

  lemma {:induction false} AfterIsSuffix(log: seq<Entry>, j: nat)
    requires LogOk(log) && j <= |log|
    ensures After(log, IdAt(log, j)) == log[j..]
  {
    if j == 0 {
      assert log[0..] == log;
    } else if j == 1 {
      AfterTail(log[1..], log[0].id);
    } else {
      assert LogOk(log[1..]);
      AfterIsSuffix(log[1..], j - 1);
      assert log[1..][j - 1..] == log[j..];
      assert IdLess(log[0].id, log[j - 1].id);
    }
  }

  lemma AfterTail(rest: seq<Entry>, id: StreamId)
    requires rest != [] ==> IdLess(id, rest[0].id)
    ensures After(rest, id) == rest
  {
  }

  lemma {:induction false} ReplayPosition(s: State, entries: seq<Entry>)
    requires Wf(s) && Decodable(entries) && entries != []
    ensures Replay(s, entries).lastInputId == entries[|entries| - 1].id
  {
    hide Wf, Dispatch;
  }

  /** Replaying the log after a snapshot's stream position ends in the fold of the whole
      log, even if the position had moved behind what the snapshot reflects. */
  lemma ReplayCatchesUp(market: MarketConfig, log: seq<Entry>, s: State, k: nat, j: nat)
    requires LogOk(log) && Tracks(market, log, s, k, j)
    ensures Decodable(After(log, s.lastInputId))
    ensures Tracks(market, log, Replay(s, After(log, s.lastInputId)), |log|, |log|)
  {
    AfterIsSuffix(log, j);
    LogParts(log, j, k);
    hide Replay, Genesis, AllInert, Decodable, Wf, Alike, LogOk, IdAt, After;
    var r := Replay(s, log[j..]);
    CaughtUp(market, s, log[..k], log[j..k], log[k..]);
    NothingIsInert(r);
    LastPosition(log, s, j);
  }

  lemma LastPosition(log: seq<Entry>, s: State, j: nat)
    requires LogOk(log) && j <= |log| && Wf(s) && Decodable(log[j..]) && s.lastInputId == IdAt(log, j)
    ensures Replay(s, log[j..]).lastInputId == IdAt(log, |log|)
  {
    if j < |log| { ReplayPosition(s, log[j..]); }
    hide Wf, LogOk, Decodable;
  }

  lemma NothingIsInert(s: State)
    ensures AllInert(s, [])
  {
  }

  lemma LogParts(log: seq<Entry>, j: nat, k: nat)
    requires LogOk(log) && j <= k <= |log|
    ensures log[j..] == log[j..k] + log[k..] && log[..k] + log[k..] == log
    ensures Decodable(log[..k]) && Decodable(log[j..k]) && Decodable(log[k..]) && Decodable(log[j..])
    ensures log[..|log|] == log && log[|log|..|log|] == []
  {
  }

  lemma CaughtUp(market: MarketConfig, s: State, head: seq<Entry>, mid: seq<Entry>, tail: seq<Entry>)
    requires Wf(s) && Decodable(head) && Decodable(mid) && Decodable(tail)
    requires Alike(s, Genesis(market, head)) && AllInert(s, mid)
    ensures Decodable(mid + tail) && Decodable(head + tail)
    ensures Alike(Replay(s, mid + tail), Genesis(market, head + tail))
  {
    GenesisWf(market);
    var s0 := CreateState(market);
    ReplayConcat(s, mid, tail);
    ReplayConcat(s0, head, tail);
    ReplayInert(s, mid);
    hide Replay, AllInert, Decodable, Wf, Alike;
    var t := Replay(s, mid);
    AlikeTransitive(t, s, Replay(s0, head));
    ReplayAlike(t, Replay(s0, head), tail);
  }

  /** A restored snapshot tracks what the saved state tracked. */
  lemma RestoredTracks(market: MarketConfig, log: seq<Entry>, s: State, k: nat, j: nat)
    requires LogOk(log) && Tracks(market, log, s, k, j)
    ensures Deserialize(Serialize(s)).Some?
    ensures Tracks(market, log, Deserialize(Serialize(s)).value, k, j)
  {
    RestoreAlike(s);
    var t := Deserialize(Serialize(s)).value;
    hide Serialize, Deserialize, Wf;
    AlikeTransitive(t, s, Genesis(market, log[..k]));
    AlikeTransitive(s, t, t);
    AlikeInert(s, t, log[j..k]);
  }

  lemma AlikeInert(s: State, t: State, entries: seq<Entry>)
    requires Alike(s, t) && AllInert(s, entries)
    ensures AllInert(t, entries)
  {
    forall i | 0 <= i < |entries| && entries[i].event.Some? ensures Inert(t, entries[i].event.value) {
      assert Inert(s, entries[i].event.value);
    }
  }

  // ----- The step system -----

  datatype Process = Down | Up(s: State, replayedThrough: StreamId)

  datatype System = System(
    log: seq<Entry>, process: Process, cursor: nat, pending: set<nat>, files: seq<File>, deadLetters: seq<nat>)

  datatype Action =
    | Append(entry: Entry)
    | Deliver(published: bool)              // the group hands out the next entry
    | Redeliver(i: nat, published: bool)    // a pending entry is claimed again
    | DeadLetter(i: nat)                    // a pending entry is given up
    | Save(savedAt: nat)
    | Damage(file: nat)
    | Crash(taken: nat)                     // with `taken` entries handed out but not handled
    | Start(from: Option<nat>)              // recover from a valid file, or from genesis

  /** Redelivery inside the window: the engine still has evidence of the entry and of
      everything handled after it. */
  ghost predicate InsideWindow(sys: System, i: nat)
    requires sys.process.Up?
  {
    i < sys.cursor <= |sys.log| &&
    (IdLess(sys.process.replayedThrough, sys.log[i].id) ==> AllInert(sys.process.s, sys.log[i..sys.cursor]))
  }

  ghost predicate Enabled(sys: System, a: Action)
  {
    match a
    case Append(x) => LogOk(sys.log + [x])
    case Deliver(_) => sys.process.Up? && sys.cursor < |sys.log|
    case Redeliver(i, _) => sys.process.Up? && i in sys.pending && InsideWindow(sys, i)
    case DeadLetter(i) => sys.process.Up? && i in sys.pending
    case Save(_) => sys.process.Up?
    case Damage(file) => file < |sys.files|
    case Crash(taken) => sys.cursor + taken <= |sys.log|
    case Start(file) => sys.process.Down? && (file.Some? ==> file.value < |sys.files| && sys.files[file.value].Valid?)
  }

  /** The live handler's effect on the engine: what recovery has replayed and what does not
      decode is not processed. */
  function HandledBy(p: Process, x: Entry): (q: Process)
    requires p.Up? && (x.event.Some? ==> x.event.value.Admitted())
    requires Positive(p.s.bids) && Positive(p.s.asks)
    ensures q.Up? && q.replayedThrough == p.replayedThrough
  {
    if IdLess(p.replayedThrough, x.id) && x.event.Some? then Up(Step(p.s, x.event.value, x.id), p.replayedThrough)
    else p
  }

  /** Whether the handler returns normally, so that the consumer acknowledges. */
  predicate Acked(p: Process, x: Entry, published: bool)
    requires p.Up?
  {
    IdLess(p.replayedThrough, x.id) ==> x.event.Some? && published
  }

  /** The live handler: skip what recovery has replayed, leave what does not decode or is
      not published pending, acknowledge the rest. */
  function Handle(sys: System, i: nat, published: bool): System
    requires sys.process.Up? && i < |sys.log| && Decodable(sys.log)
    requires Positive(sys.process.s.bids) && Positive(sys.process.s.asks)
  {
    sys.(process := HandledBy(sys.process, sys.log[i]),
         pending := if Acked(sys.process, sys.log[i], published) then sys.pending - {i} else sys.pending + {i})
  }

  predicate InBatch(i: nat, first: nat, count: nat) { first <= i < first + count }

  /** The entries a group read hands out. */
  function Taken(first: nat, count: nat): set<nat>
  {
    set i: nat | 0 <= i < first + count && InBatch(i, first, count)
  }

  /** recover(): the loaded state, or genesis, with the rest of the log replayed. */
  ghost function Recovered(market: MarketConfig, sys: System, file: Option<nat>): (p: Process)
    requires Inv(market, sys) && Enabled(sys, Start(file))
    ensures p.Up?
  {
    var s := StartState(market, sys, file);
    assert Decodable(After(sys.log, s.lastInputId)) by { StartTracks(market, sys, file); }
    var t := Replay(s, After(sys.log, s.lastInputId));
    Up(t, t.lastInputId)
  }

  ghost function StartState(market: MarketConfig, sys: System, file: Option<nat>): (s: State)
    requires Inv(market, sys) && Enabled(sys, Start(file))
    ensures Wf(s)
  {
    StartLoads(market, sys, file);
    if file.None? then CreateState(market) else Deserialize(sys.files[file.value].saved).value
  }

  ghost function Next(market: MarketConfig, sys: System, a: Action): System
    requires Inv(market, sys) && Enabled(sys, a)
  {
    match a
    case Append(x) => sys.(log := sys.log + [x])
    case Deliver(published) => Handle(sys, sys.cursor, published).(cursor := sys.cursor + 1)
    case Redeliver(i, published) => Handle(sys, i, published)
    case DeadLetter(i) => sys.(pending := sys.pending - {i}, deadLetters := sys.deadLetters + [i])
    case Save(savedAt) => sys.(files := Prune(AddFile(FileOf(Serialize(sys.process.s), savedAt), sys.files)))
    case Damage(file) => sys.(files := sys.files[file := Corrupt(sys.files[file].name)])
    case Crash(taken) =>
      sys.(process := Down, cursor := sys.cursor + taken,
           pending := sys.pending + Taken(sys.cursor, taken))
    case Start(file) => sys.(process := Recovered(market, sys, file))
  }

  // ----- The invariant -----

  /** The process reflects exactly the first max(cursor, r) entries, where r is how far
      recovery had replayed. */
  ghost predicate ProcessOk(market: MarketConfig, log: seq<Entry>, cursor: nat, p: Process, j: nat, r: nat)
    requires LogOk(log) && p.Up?
  {
    && r <= |log| && cursor <= |log|
    && p.replayedThrough == IdAt(log, r)
    && Tracks(market, log, p.s, Max(cursor, r), j)
  }

  /** A valid file holds a state that reflected some prefix of the log. */
  ghost predicate FileOk(market: MarketConfig, log: seq<Entry>, f: File)
    requires LogOk(log)
  {
    f.Valid? ==> exists s, k, j :: Tracks(market, log, s, k, j) && f.saved == Serialize(s)
  }

  ghost predicate Inv(market: MarketConfig, sys: System)
  {
    && LogOk(sys.log)
    && sys.cursor <= |sys.log|
    && (forall i :: i in sys.pending ==> i < sys.cursor)
    && (sys.process.Up? ==> exists j, r :: ProcessOk(market, sys.log, sys.cursor, sys.process, j, r))
    && (forall f :: f in sys.files ==> FileOk(market, sys.log, f))
  }

  /** What a start loads reflects a prefix of the log. */
  lemma StartTracks(market: MarketConfig, sys: System, file: Option<nat>)
    requires Inv(market, sys) && Enabled(sys, Start(file))
    ensures file.Some? ==> Deserialize(sys.files[file.value].saved).Some?
    ensures var s := if file.None? then CreateState(market) else Deserialize(sys.files[file.value].saved).value;
      && Wf(s)
      && (exists k, j :: Tracks(market, sys.log, s, k, j))
      && Decodable(After(sys.log, s.lastInputId))
  {
    if file.None? {
      GenesisTracks(market, sys.log);
      ReplayCatchesUp(market, sys.log, CreateState(market), 0, 0);
    } else {
      var f := sys.files[file.value];
      assert FileOk(market, sys.log, f);
      var s, k, j :| Tracks(market, sys.log, s, k, j) && f.saved == Serialize(s);
      RestoredTracks(market, sys.log, s, k, j);
      ReplayCatchesUp(market, sys.log, Deserialize(f.saved).value, k, j);
    }
    hide Wf, Serialize, Deserialize, Replay, After;
  }

  lemma StartLoads(market: MarketConfig, sys: System, file: Option<nat>)
    requires Inv(market, sys) && Enabled(sys, Start(file))
    ensures Wf(CreateState(market))
    ensures file.Some? ==> var r := Deserialize(sys.files[file.value].saved); r.Some? && Wf(r.value)
  {
    GenesisWf(market);
    StartTracks(market, sys, file);
    hide Wf, Inv, Enabled, Tracks, Deserialize, CreateState, Decodable;
  }

  lemma GenesisTracks(market: MarketConfig, log: seq<Entry>)
    requires LogOk(log)
    ensures Tracks(market, log, CreateState(market), 0, 0)
  {
    GenesisWf(market);
    assert log[..0] == [] && log[0..0] == [];
  }

  /** Whichever valid file is loaded, or none: the recovered state is the genesis fold of
      the whole log and stands at its end. */
  lemma RecoveryReachesTheLog(market: MarketConfig, sys: System, file: Option<nat>)
    requires Inv(market, sys) && Enabled(sys, Start(file))
    ensures Tracks(market, sys.log, Recovered(market, sys, file).s, |sys.log|, |sys.log|)
  {
    StartTracks(market, sys, file);
    var s := StartState(market, sys, file);
    var k, j :| Tracks(market, sys.log, s, k, j);
    ReplayCatchesUp(market, sys.log, s, k, j);
    hide Wf, Serialize, Deserialize, Replay, After, Tracks;
  }

  /** Recovery is confluent. */
  lemma RecoveryIsConfluent(market: MarketConfig, sys: System, f: Option<nat>, g: Option<nat>)
    requires Inv(market, sys) && Enabled(sys, Start(f)) && Enabled(sys, Start(g))
    ensures Alike(Recovered(market, sys, f).s, Recovered(market, sys, g).s)
    ensures Recovered(market, sys, f).replayedThrough == Recovered(market, sys, g).replayedThrough
  {
    RecoveryReachesTheLog(market, sys, f);
    RecoveryReachesTheLog(market, sys, g);
    hide Wf, Recovered, AllInert;
    var x, y := Recovered(market, sys, f).s, Recovered(market, sys, g).s;
    var fold := Genesis(market, sys.log[..|sys.log|]);
    AlikeTransitive(y, fold, fold);
    AlikeTransitive(x, fold, y);
    RecoveredPosition(market, sys, f);
    RecoveredPosition(market, sys, g);
  }

  lemma RecoveredPosition(market: MarketConfig, sys: System, f: Option<nat>)
    requires Inv(market, sys) && Enabled(sys, Start(f))
    ensures Recovered(market, sys, f).replayedThrough == Recovered(market, sys, f).s.lastInputId
  {
  }

  // ----- Every step keeps the invariant -----

  lemma NextDeliver(market: MarketConfig, sys: System, published: bool)
    requires Inv(market, sys) && Enabled(sys, Deliver(published))
    ensures Decodable(sys.log) && Positive(sys.process.s.bids) && Positive(sys.process.s.asks)
    ensures Next(market, sys, Deliver(published)) == Handle(sys, sys.cursor, published).(cursor := sys.cursor + 1)
  {
    InvParts(market, sys);
    hide Inv, Handle;
  }

  lemma NextRedeliver(market: MarketConfig, sys: System, i: nat, published: bool)
    requires Inv(market, sys) && Enabled(sys, Redeliver(i, published))
    ensures Decodable(sys.log) && Positive(sys.process.s.bids) && Positive(sys.process.s.asks)
    ensures Next(market, sys, Redeliver(i, published)) == Handle(sys, i, published)
  {
    InvParts(market, sys);
    hide Inv, Handle;
  }

  lemma NextSave(market: MarketConfig, sys: System, savedAt: nat)
    requires Inv(market, sys) && Enabled(sys, Save(savedAt))
    requires sys.process.s.balances.Ok() && sys.process.s.positions.Ok()
    ensures Next(market, sys, Save(savedAt))
         == sys.(files := Prune(AddFile(FileOf(Serialize(sys.process.s), savedAt), sys.files)))
  {
    hide Inv, Prune, AddFile, Serialize;
  }

  lemma NextStart(market: MarketConfig, sys: System, from: Option<nat>)
    requires Inv(market, sys) && Enabled(sys, Start(from))
    ensures Next(market, sys, Start(from)) == sys.(process := Recovered(market, sys, from))
  {
    hide Inv, Recovered;
  }

  lemma ProcessWitness(market: MarketConfig, sys: System) returns (j: nat, r: nat)
    requires Inv(market, sys) && sys.process.Up?
    ensures ProcessOk(market, sys.log, sys.cursor, sys.process, j, r)
  {
    hide ProcessOk, FileOk, LogOk;
    j, r :| ProcessOk(market, sys.log, sys.cursor, sys.process, j, r);
  }

  lemma PrefixStable(log: seq<Entry>, x: Entry, k: nat, j: nat)
    requires j <= k <= |log|
    ensures (log + [x])[..k] == log[..k] && (log + [x])[j..k] == log[j..k]
    ensures IdAt(log + [x], k) == IdAt(log, k)
  {
  }

  lemma AppendTracks(market: MarketConfig, log: seq<Entry>, x: Entry, s: State, k: nat, j: nat)
    requires LogOk(log) && LogOk(log + [x]) && Tracks(market, log, s, k, j)
    ensures Tracks(market, log + [x], s, k, j)
  {
    PrefixStable(log, x, k, j);
    PrefixStable(log, x, j, j);
    hide Genesis, Alike, Wf, AllInert, Decodable, LogOk, IdAt;
  }

  lemma AppendFile(market: MarketConfig, log: seq<Entry>, x: Entry, f: File)
    requires LogOk(log) && LogOk(log + [x]) && FileOk(market, log, f)
    ensures FileOk(market, log + [x], f)
  {
    hide LogOk, Serialize, Genesis, Alike, AllInert, IdAt;
    if f.Valid? {
      var s, k, j :| Tracks(market, log, s, k, j) && f.saved == Serialize(s);
      AppendTracks(market, log, x, s, k, j);
    }
  }

  lemma AppendProcess(market: MarketConfig, log: seq<Entry>, x: Entry, cursor: nat, p: Process, j: nat, r: nat)
    requires LogOk(log) && LogOk(log + [x]) && p.Up? && ProcessOk(market, log, cursor, p, j, r)
    ensures ProcessOk(market, log + [x], cursor, p, j, r)
  {
    hide LogOk, Tracks, IdAt;
    AppendTracks(market, log, x, p.s, Max(cursor, r), j);
    PrefixStable(log, x, r, r);
  }

  lemma AppendKeepsInv(market: MarketConfig, sys: System, x: Entry)
    requires Inv(market, sys) && Enabled(sys, Append(x))
    ensures Inv(market, Next(market, sys, Append(x)))
  {
    hide LogOk, ProcessOk, FileOk;
    if sys.process.Up? {
      var j, r := ProcessWitness(market, sys);
      AppendProcess(market, sys.log, x, sys.cursor, sys.process, j, r);
    }
    forall f | f in sys.files ensures FileOk(market, sys.log + [x], f) {
      AppendFile(market, sys.log, x, f);
    }
  }

  /** Handling the entry after the reflected prefix extends it by one. */
  lemma NextEntryTracks(market: MarketConfig, log: seq<Entry>, s: State, k: nat, j: nat)
    requires LogOk(log) && Tracks(market, log, s, k, j) && k < |log|
    ensures log[k].event.Some? ==>
      log[k].event.value.Admitted() && Wf(s) && Tracks(market, log, Step(s, log[k].event.value, log[k].id), k + 1, k + 1)
    ensures log[k].event.None? ==> Tracks(market, log, s, k + 1, j)
  {
    var x := log[k];
    NextParts(log, j, k);
    GenesisNext(market, log[..k], x);
    hide Replay, Genesis, Wf, AllInert, Decodable, LogOk, Alike, IdAt, ReplayStep;
    var fold := Genesis(market, log[..k]);
    if x.event.Some? {
      ReplayStepIsStep(s, x);
      ReplayStepWf(s, x);
      ReplayStepAlike(s, fold, x);
      NothingIsInert(ReplayStep(s, x));
      PositionAfter(s, x);
    } else {
      SkippedAlike(s, fold, x);
      UndecodableIsInert(s, log[j..k], x);
    }
  }

  lemma NextParts(log: seq<Entry>, j: nat, k: nat)
    requires LogOk(log) && j <= k < |log|
    ensures Decodable(log[..k]) && Decodable(log[..k + 1])
    ensures log[k].event.Some? ==> log[k].event.value.Admitted()
    ensures log[..k + 1] == log[..k] + [log[k]] && log[k + 1..k + 1] == [] && log[j..k + 1] == log[j..k] + [log[k]]
    ensures IdAt(log, k + 1) == log[k].id
  {
  }

  lemma GenesisNext(market: MarketConfig, log: seq<Entry>, x: Entry)
    requires Decodable(log) && (x.event.Some? ==> x.event.value.Admitted())
    ensures Decodable(log + [x]) && Genesis(market, log + [x]) == ReplayStep(Genesis(market, log), x)
  {
    GenesisWf(market);
    ReplayLast(CreateState(market), log, x);
  }

  lemma ReplayStepIsStep(s: State, x: Entry)
    requires Wf(s) && x.event.Some? && x.event.value.Admitted()
    ensures ReplayStep(s, x) == Step(s, x.event.value, x.id)
  {
    hide Wf, Step;
  }

  lemma SkippedAlike(s: State, t: State, x: Entry)
    requires Wf(s) && Wf(t) && Alike(s, t) && x.event.None?
    ensures Alike(s, ReplayStep(t, x))
  {
    hide Wf;
  }

  lemma UndecodableIsInert(s: State, entries: seq<Entry>, x: Entry)
    requires AllInert(s, entries) && x.event.None?
    ensures AllInert(s, entries + [x])
  {
    hide Inert;
  }

  lemma PositionAfter(s: State, x: Entry)
    requires Wf(s) && x.event.Some? && x.event.value.Admitted()
    ensures Step(s, x.event.value, x.id).lastInputId == x.id
  {
    hide Wf, Dispatch;
  }

  /** Handling an entry again inside the window changes only the stream position. */
  lemma RepeatedEntryTracks(market: MarketConfig, log: seq<Entry>, s: State, k: nat, j: nat, i: nat)
    requires LogOk(log) && Tracks(market, log, s, k, j) && i < k
    requires AllInert(s, log[i..k]) && log[i].event.Some?
    ensures log[i].event.value.Admitted() && Wf(s)
    ensures Tracks(market, log, Step(s, log[i].event.value, log[i].id), k, i + 1)
  {
    var x := log[i];
    assert log[i..k] == [x] + log[i + 1..k];
    NextParts(log, i, i);
    InertParts(s, x, log[i + 1..k]);
    hide Step, Genesis, Wf, Inert, AllInert, LogOk, Decodable, IdAt;
    InertKeepsState(s, x.event.value, x.id);
    PositionAfter(s, x);
    StepWf(s, x.event.value, x.id);
    var t := Step(s, x.event.value, x.id);
    AlikeTransitive(t, s, Genesis(market, log[..k]));
    AlikeTransitive(t, s, s);
    AlikeInert(s, t, log[i + 1..k]);
  }

  lemma InertParts(s: State, x: Entry, rest: seq<Entry>)
    requires AllInert(s, [x] + rest)
    ensures AllInert(s, rest) && (x.event.Some? ==> Inert(s, x.event.value))
  {
    hide Inert;
    var all := [x] + rest;
    assert all[0] == x;
    forall i | 0 <= i < |rest| && rest[i].event.Some? ensures Inert(s, rest[i].event.value) {
      assert all[i + 1] == rest[i];
    }
  }

  lemma IdOrder(log: seq<Entry>, r: nat, i: nat)
    requires LogOk(log) && r <= |log| && i < |log|
    ensures IdLess(IdAt(log, r), log[i].id) <==> r <= i
  {
  }

  /** After handling, only process, cursor and pending have changed. */
  lemma HandledKeepsInv(market: MarketConfig, sys: System, next: System, j: nat, r: nat)
    requires Inv(market, sys)
    requires next.log == sys.log && next.files == sys.files && next.process.Up?
    requires sys.cursor <= next.cursor <= |sys.log|
    requires forall i :: i in next.pending ==> i < next.cursor
    requires ProcessOk(market, sys.log, next.cursor, next.process, j, r)
    ensures Inv(market, next)
  {
    hide ProcessOk, FileOk, LogOk;
  }

  /** The three outcomes of the live handler. */
  lemma HandleShape(sys: System, i: nat, published: bool)
    requires sys.process.Up? && i < |sys.log| && Decodable(sys.log)
    requires Positive(sys.process.s.bids) && Positive(sys.process.s.asks)
    ensures var n, x := Handle(sys, i, published), sys.log[i];
      && n.log == sys.log && n.files == sys.files && n.cursor == sys.cursor
      && (forall m :: m in n.pending ==> m in sys.pending || m == i)
      && n.process == (if IdLess(sys.process.replayedThrough, x.id) && x.event.Some?
           then Up(Step(sys.process.s, x.event.value, x.id), sys.process.replayedThrough) else sys.process)
  {
    hide Step, IdLess;
  }

  lemma InvParts(market: MarketConfig, sys: System)
    requires Inv(market, sys) && sys.process.Up?
    ensures Decodable(sys.log) && Positive(sys.process.s.bids) && Positive(sys.process.s.asks)
  {
    var j, r := ProcessWitness(market, sys);
    hide FileOk, Genesis, Alike, AllInert;
  }

  lemma DeliverKeepsInv(market: MarketConfig, sys: System, published: bool)
    requires Inv(market, sys) && Enabled(sys, Deliver(published))
    ensures Inv(market, Next(market, sys, Deliver(published)))
  {
    hide Next, ProcessOk, FileOk, Handle, Step, LogOk, Decodable, Positive;
    var j, r := ProcessWitness(market, sys);
    var c, p := sys.cursor, sys.process;
    NextDeliver(market, sys, published);
    HandleShape(sys, c, published);
    var next := Handle(sys, c, published).(cursor := c + 1);
    var j' := ExtendedProcess(market, sys.log, c, p, j, r);
    HandledKeepsInv(market, sys, next, j', r);
  }

  /** The process after being handed entry c. */
  lemma ExtendedProcess(market: MarketConfig, log: seq<Entry>, c: nat, p: Process, j: nat, r: nat) returns (j': nat)
    requires LogOk(log) && p.Up? && c < |log| && ProcessOk(market, log, c, p, j, r)
    requires Decodable(log) && Positive(p.s.bids) && Positive(p.s.asks)
    ensures ProcessOk(market, log, c + 1,
              if IdLess(p.replayedThrough, log[c].id) && log[c].event.Some?
              then Up(Step(p.s, log[c].event.value, log[c].id), p.replayedThrough) else p, j', r)
  {
    hide *;
    ProcessPosition(market, log, c, p, j, r);
    IdOrder(log, r, c);
    if r <= c {
      j' := HandedNext(market, log, c, p, j, r);
    } else {
      j' := j;
      StillReplayed(market, log, c, p, j, r);
    }
  }

  /** Entry c is the next one: the process takes it in, unless it does not decode. */
  lemma HandedNext(market: MarketConfig, log: seq<Entry>, c: nat, p: Process, j: nat, r: nat) returns (j': nat)
    requires LogOk(log) && p.Up? && r <= c < |log| && ProcessOk(market, log, c, p, j, r)
    requires Decodable(log) && Positive(p.s.bids) && Positive(p.s.asks)
    ensures ProcessOk(market, log, c + 1,
              if log[c].event.Some? then Up(Step(p.s, log[c].event.value, log[c].id), p.replayedThrough) else p, j', r)
  {
    hide Step, LogOk, Tracks, Positive, IdAt, Decodable;
    NextEntryTracks(market, log, p.s, c, j);
    j' := if log[c].event.Some? then c + 1 else j;
  }

  /** Recovery had replayed entry c already. */
  lemma StillReplayed(market: MarketConfig, log: seq<Entry>, c: nat, p: Process, j: nat, r: nat)
    requires LogOk(log) && p.Up? && c < r && c < |log| && ProcessOk(market, log, c, p, j, r)
    ensures ProcessOk(market, log, c + 1, p, j, r)
  {
    hide LogOk, Tracks, IdAt;
  }

  lemma RedeliverKeepsInv(market: MarketConfig, sys: System, i: nat, published: bool)
    requires Inv(market, sys) && Enabled(sys, Redeliver(i, published))
    ensures Inv(market, Next(market, sys, Redeliver(i, published)))
  {
    hide Next, ProcessOk, FileOk, Handle, Step, LogOk, Decodable, Positive, AllInert;
    var j, r := ProcessWitness(market, sys);
    var c, p := sys.cursor, sys.process;
    NextRedeliver(market, sys, i, published);
    HandleShape(sys, i, published);
    var j' := RepeatedProcess(market, sys.log, c, p, j, r, i);
    HandledKeepsInv(market, sys, Handle(sys, i, published), j', r);
  }

  lemma ProcessPosition(market: MarketConfig, log: seq<Entry>, c: nat, p: Process, j: nat, r: nat)
    requires LogOk(log) && p.Up? && ProcessOk(market, log, c, p, j, r)
    ensures r <= |log| && p.replayedThrough == IdAt(log, r)
  {
    hide Tracks, LogOk, IdAt;
  }

  /** The process after being handed entry i again, inside the window. */
  lemma RepeatedProcess(market: MarketConfig, log: seq<Entry>, c: nat, p: Process, j: nat, r: nat, i: nat)
    returns (j': nat)
    requires LogOk(log) && p.Up? && i < c <= |log| && ProcessOk(market, log, c, p, j, r)
    requires Decodable(log) && Positive(p.s.bids) && Positive(p.s.asks)
    requires IdLess(p.replayedThrough, log[i].id) ==> AllInert(p.s, log[i..c])
    ensures ProcessOk(market, log, c,
              if IdLess(p.replayedThrough, log[i].id) && log[i].event.Some?
              then Up(Step(p.s, log[i].event.value, log[i].id), p.replayedThrough) else p, j', r)
  {
    hide *;
    ProcessPosition(market, log, c, p, j, r);
    IdOrder(log, r, i);
    j' := j;
    if r <= i && log[i].event.Some? {
      RepeatedUp(market, log, c, p, j, r, i);
      j' := i + 1;
    }
  }

  lemma RepeatedUp(market: MarketConfig, log: seq<Entry>, c: nat, p: Process, j: nat, r: nat, i: nat)
    requires LogOk(log) && p.Up? && r <= i < c <= |log| && ProcessOk(market, log, c, p, j, r)
    requires log[i].event.Some? && AllInert(p.s, log[i..c])
    requires Decodable(log) && Positive(p.s.bids) && Positive(p.s.asks)
    ensures ProcessOk(market, log, c, Up(Step(p.s, log[i].event.value, log[i].id), p.replayedThrough), i + 1, r)
  {
    hide Step, LogOk, Tracks, Positive, IdAt, AllInert;
    RepeatedEntryTracks(market, log, p.s, c, j, i);
  }

  lemma FilesKeepInv(market: MarketConfig, sys: System, next: System)
    requires Inv(market, sys) && next == sys.(files := next.files)
    requires forall f :: f in next.files ==> FileOk(market, sys.log, f)
    ensures Inv(market, next)
  {
    hide ProcessOk, FileOk, LogOk;
  }

  lemma SaveKeepsInv(market: MarketConfig, sys: System, savedAt: nat)
    requires Inv(market, sys) && Enabled(sys, Save(savedAt))
    ensures Inv(market, Next(market, sys, Save(savedAt)))
  {
    hide Next, LogOk, FileOk, Serialize, ProcessOk, AddFile;
    var j, r := ProcessWitness(market, sys);
    SavedFileOk(market, sys.log, sys.cursor, sys.process, j, r, savedAt);
    NextSave(market, sys, savedAt);
    hide Wf;
    var f := FileOf(Serialize(sys.process.s), savedAt);
    AddFileMembers(f, sys.files);
    var next := sys.(files := Prune(AddFile(f, sys.files)));
    forall g | g in next.files ensures FileOk(market, sys.log, g) {
      assert g == f || g in sys.files;
    }
    FilesKeepInv(market, sys, next);
  }

  lemma SavedFileOk(market: MarketConfig, log: seq<Entry>, cursor: nat, p: Process, j: nat, r: nat, savedAt: nat)
    requires LogOk(log) && p.Up? && ProcessOk(market, log, cursor, p, j, r)
    ensures Wf(p.s) && FileOk(market, log, FileOf(Serialize(p.s), savedAt))
  {
    assert Tracks(market, log, p.s, Max(cursor, r), j);
    hide Tracks, Serialize, LogOk;
  }

  lemma StartedKeepsInv(market: MarketConfig, sys: System, p: Process)
    requires Inv(market, sys) && p.Up? && ProcessOk(market, sys.log, sys.cursor, p, |sys.log|, |sys.log|)
    ensures Inv(market, sys.(process := p))
  {
    hide ProcessOk, FileOk, LogOk;
  }

  lemma StartKeepsInv(market: MarketConfig, sys: System, from: Option<nat>)
    requires Inv(market, sys) && Enabled(sys, Start(from))
    ensures Inv(market, Next(market, sys, Start(from)))
  {
    hide Next, Recovered, FileOk, LogOk, Genesis, Alike, Wf, AllInert;
    RecoveryReachesTheLog(market, sys, from);
    RecoveredPosition(market, sys, from);
    NextStart(market, sys, from);
    StartedKeepsInv(market, sys, Recovered(market, sys, from));
  }

  lemma QuietKeepsInv(market: MarketConfig, sys: System, a: Action)
    requires Inv(market, sys) && Enabled(sys, a) && (a.DeadLetter? || a.Damage? || a.Crash?)
    ensures Inv(market, Next(market, sys, a))
  {
    hide Wf, LogOk, ProcessOk;
  }

  lemma NextKeepsInv(market: MarketConfig, sys: System, a: Action)
    requires Inv(market, sys) && Enabled(sys, a)
    ensures Inv(market, Next(market, sys, a))
  {
    match a {
      case Append(x) => AppendKeepsInv(market, sys, x);
      case Deliver(published) => DeliverKeepsInv(market, sys, published);
      case Redeliver(i, published) => RedeliverKeepsInv(market, sys, i, published);
      case Save(savedAt) => SaveKeepsInv(market, sys, savedAt);
      case Start(from) => StartKeepsInv(market, sys, from);
      case _ => QuietKeepsInv(market, sys, a);
    }
    hide Inv, Next, Enabled;
  }

  lemma GrowOne(market: MarketConfig, sys: System, x: Entry)
    requires Inv(market, sys) && LogOk(sys.log + [x])
    ensures Inv(market, sys.(log := sys.log + [x]))
  {
    hide Inv, LogOk;
    AppendKeepsInv(market, sys, x);
  }

  /** Entries appended one after the other. */
  lemma {:induction false} GrowthKeepsInv(market: MarketConfig, sys: System, log: seq<Entry>, n: nat)
    requires Inv(market, sys) && LogOk(log) && |sys.log| <= n <= |log| && log[..|sys.log|] == sys.log
    ensures Inv(market, sys.(log := log[..n]))
    decreases n
  {
    hide *;
    if n == |sys.log| {
      assert sys.(log := log[..n]) == sys;
    } else {
      GrowthKeepsInv(market, sys, log, n - 1);
      PrefixOk(log, n);
      var before := sys.(log := log[..n - 1]);
      assert log[..n] == before.log + [log[n - 1]];
      GrowOne(market, before, log[n - 1]);
    }
  }

  lemma PrefixOk(log: seq<Entry>, n: nat)
    requires LogOk(log) && n <= |log|
    ensures LogOk(log[..n])
  {
  }

  // ----- Every execution -----

  const INITIAL := System([], Down, 0, {}, [], [])

  /** The system after a sequence of actions, each enabled when it is taken. */
  ghost predicate Reaches(market: MarketConfig, actions: seq<Action>, sys: System)
  {
    if actions == [] then sys == INITIAL
    else
      var n := |actions| - 1;
      exists before ::
        && Reaches(market, actions[..n], before)
        && Inv(market, before) && Enabled(before, actions[n]) && sys == Next(market, before, actions[n])
  }

  lemma {:induction false} ReachableInv(market: MarketConfig, actions: seq<Action>, sys: System)
    requires Reaches(market, actions, sys)
    ensures Inv(market, sys)
  {
    if actions != [] {
      var n := |actions| - 1;
      var before :| Reaches(market, actions[..n], before) && Inv(market, before)
        && Enabled(before, actions[n]) && sys == Next(market, before, actions[n]);
      NextKeepsInv(market, before, actions[n]);
      hide Inv, Next, Enabled;
    }
  }

  /** For every interleaving, a running engine's state is the genesis fold of a prefix of
      the log, and that prefix holds everything the group has handed out, so nothing
      acknowledged, pending or dead-lettered is missing from it. */
  lemma StateIsAFoldOfTheLog(market: MarketConfig, actions: seq<Action>, sys: System)
    requires Reaches(market, actions, sys) && sys.process.Up?
    ensures LogOk(sys.log)
    ensures exists k :: sys.cursor <= k <= |sys.log| && Decodable(sys.log[..k])
                        && Alike(sys.process.s, Genesis(market, sys.log[..k]))
  {
    ReachableInv(market, actions, sys);
    var j, r := ProcessWitness(market, sys);
    hide Genesis, Wf, LogOk, AllInert, Alike, Reaches, FileOk, Decodable, IdAt;
    var k := Max(sys.cursor, r);
    assert sys.cursor <= k && Decodable(sys.log[..k]) && Alike(sys.process.s, Genesis(market, sys.log[..k]));
  }

  /** No execution is lost: every enabled action extends every execution. */
  lemma ExecutionsExtend(market: MarketConfig, actions: seq<Action>, sys: System, a: Action)
    requires Reaches(market, actions, sys) && Enabled(sys, a)
    ensures Inv(market, sys) && Reaches(market, actions + [a], Next(market, sys, a))
  {
    ReachableInv(market, actions, sys);
    var all := actions + [a];
    assert all[..|all| - 1] == actions;
    hide Inv, Next, Enabled;
  }

  // ----- When redelivery is inside the window -----

  predicate KeyedEntries(entries: seq<Entry>)
  {
    forall i :: 0 <= i < |entries| && entries[i].event.Some? ==> Keyed(entries[i].event.value)
  }

  /** No command id occurs twice in the log. */
  ghost predicate DistinctCommands(log: seq<Entry>)
  {
    forall i, j | 0 <= i < j < |log| && log[i].event.Some? && log[j].event.Some? ::
      log[i].event.value.commandId.Some? ==> log[i].event.value.commandId != log[j].event.value.commandId
  }

  predicate Mentions(entries: seq<Entry>, x: string)
  {
    exists i :: 0 <= i < |entries| && entries[i].event.Some? && entries[i].event.value.commandId == Some(x)
  }

  /** Applied ids come from the log. */
  lemma {:induction false} WindowFromLog(s: State, entries: seq<Entry>, x: string)
    requires Wf(s) && Decodable(entries) && s.appliedCommandIds == []
    ensures x in Replay(s, entries).appliedCommandIds ==> Mentions(entries, x)
  {
    hide Step, Wf, AlreadyApplied;
    if entries != [] {
      var n := |entries| - 1;
      var t, e := Replay(s, entries[..n]), entries[n];
      DecodableParts(entries, n);
      WindowFromLog(s, entries[..n], x);
      if Mentions(entries[..n], x) {
        var i :| 0 <= i < n && entries[..n][i].event.Some? && entries[..n][i].event.value.commandId == Some(x);
        assert entries[i] == entries[..n][i];
      }
      if e.event.Some? {
        StepWindow(t, e.event.value, e.id);
      }
    }
  }

  /** m entries after it was applied, a command id is among the newest m + 1. */
  lemma {:induction false} AppliedIsRecent(s: State, log: seq<Entry>, i: nat)
    requires Wf(s) && Decodable(log) && s.appliedCommandIds == [] && DistinctCommands(log)
    requires i < |log| <= i + MAX_APPLIED_COMMANDS
    requires log[i].event.Some? && log[i].event.value.commandId.Some?
    ensures Recent(Replay(s, log).appliedCommandIds, log[i].event.value.commandId.value, |log| - i)
    decreases |log|
  {
    hide Step, Wf, Recent, FreshId, Newest, Mentions, DistinctCommands;
    var n := |log| - 1;
    var x := log[i].event.value.commandId.value;
    var t, last := Replay(s, log[..n]), log[n];
    DecodableParts(log, n);
    if i == n {
      WindowFromLog(s, log[..n], x);
      FreshInPrefix(log, n, x);
      AppliedLast(t, last.event.value, last.id);
    } else {
      assert log[..n][i] == log[i];
      DistinctPrefix(log, n);
      AppliedIsRecent(s, log[..n], i);
      if last.event.Some? {
        StepAges(t, last.event.value, last.id, x, n - i);
      } else {
        OlderIsRecent(t.appliedCommandIds, x, n - i);
      }
    }
  }

  lemma DistinctPrefix(log: seq<Entry>, n: nat)
    requires DistinctCommands(log) && n <= |log|
    ensures DistinctCommands(log[..n])
  {
  }

  lemma FreshInPrefix(log: seq<Entry>, n: nat, x: string)
    requires DistinctCommands(log) && n < |log|
    requires log[n].event.Some? && log[n].event.value.commandId == Some(x)
    ensures !Mentions(log[..n], x)
  {
    forall i | 0 <= i < n && log[..n][i].event.Some? ensures log[..n][i].event.value.commandId != Some(x) {
      assert log[i] == log[..n][i];
    }
  }

  lemma OlderIsRecent(w: seq<string>, x: string, t: nat)
    requires Recent(w, x, t)
    ensures Recent(w, x, t + 1)
  {
  }

  lemma AppliedLast(s: State, e: Event, id: StreamId)
    requires Wf(s) && e.Admitted() && e.commandId.Some? && !AlreadyApplied(s, e)
    ensures Recent(Step(s, e, id).appliedCommandIds, e.commandId.value, 1)
  {
    hide Step, Wf;
    StepWindow(s, e, id);
    NewestLast(s.appliedCommandIds, e.commandId.value);
  }

  /** A handled tick without command id is stale from then on. */
  lemma {:induction false} HandledTickIsStale(s: State, log: seq<Entry>, i: nat)
    requires Wf(s) && Decodable(log) && i < |log| && log[i].event.Some?
    requires log[i].event.value.commandId.None? && log[i].event.value.payload.IndexPriceUpdated?
    ensures Inert(Replay(s, log), log[i].event.value)
    decreases |log|
  {
    hide Step, Wf;
    var n := |log| - 1;
    var t, last := Replay(s, log[..n]), log[n];
    DecodableParts(log, n);
    if i == n {
      ProcessedIsInert(t, last.event.value, last.id);
    } else {
      assert log[..n][i] == log[i];
      HandledTickIsStale(s, log[..n], i);
      if last.event.Some? { ObserverSeqMonotone(t, last.event.value, last.id); }
    }
  }

  /** With a command id on everything but ticks, no id used twice and no more than 50 000
      entries handled since, every redelivery is inside the window. */
  lemma RecentEntriesAreInert(market: MarketConfig, log: seq<Entry>, s: State, i: nat)
    requires Decodable(log) && KeyedEntries(log) && DistinctCommands(log)
    requires i <= |log| <= i + MAX_APPLIED_COMMANDS
    requires Wf(s) && Alike(s, Genesis(market, log))
    ensures AllInert(s, log[i..])
  {
    GenesisWf(market);
    var fold := Genesis(market, log);
    forall m | 0 <= m < |log[i..]| && log[i..][m].event.Some? ensures Inert(fold, log[i..][m].event.value) {
      assert log[i..][m] == log[i + m];
      var e := log[i + m].event.value;
      if e.commandId.Some? {
        AppliedIsRecent(CreateState(market), log, i + m);
      } else {
        HandledTickIsStale(CreateState(market), log, i + m);
      }
    }
    AlikeTransitive(s, fold, fold);
    AlikeInert(fold, s, log[i..]);
  }

  lemma KeyedPrefix(log: seq<Entry>, k: nat)
    requires KeyedEntries(log) && DistinctCommands(log) && k <= |log|
    ensures KeyedEntries(log[..k]) && DistinctCommands(log[..k])
  {
  }

  /** What a caller can see of the log decides: with ids on everything but ticks and none
      used twice, redelivering a pending entry is inside the window if at most 50 000 entries
      were handed out since. */
  lemma RecentRedeliveryIsInsideWindow(market: MarketConfig, sys: System, i: nat)
    requires Inv(market, sys) && sys.process.Up? && i in sys.pending
    requires KeyedEntries(sys.log) && DistinctCommands(sys.log) && sys.cursor <= i + MAX_APPLIED_COMMANDS
    ensures InsideWindow(sys, i)
  {
    var j, r := ProcessWitness(market, sys);
    var c := sys.cursor;
    assert i < c <= |sys.log|;
    assert LogOk(sys.log);
    hide Inv, LogOk, KeyedEntries, DistinctCommands, IdAt, IdLess;
    ProcessPosition(market, sys.log, c, sys.process, j, r);
    IdOrder(sys.log, r, i);
    if r <= i {
      KeyedPrefix(sys.log, c);
      ProcessFolds(market, sys.log, c, sys.process, j, r);
      assert sys.log[..c][i..] == sys.log[i..c];
      RecentEntriesAreInert(market, sys.log[..c], sys.process.s, i);
    }
  }

  lemma ProcessFolds(market: MarketConfig, log: seq<Entry>, c: nat, p: Process, j: nat, r: nat)
    requires LogOk(log) && p.Up? && ProcessOk(market, log, c, p, j, r) && r <= c
    ensures c <= |log| && Wf(p.s) && Decodable(log[..c]) && Alike(p.s, Genesis(market, log[..c]))
  {
    hide LogOk, IdAt, AllInert, Wf, Decodable, Genesis, Alike;
  }

  /** Actions whose guards speak of the log and the group only. */
  ghost predicate Allowed(sys: System, a: Action)
  {
    match a
    case Redeliver(i, _) => sys.process.Up? && i in sys.pending && sys.cursor <= i + MAX_APPLIED_COMMANDS
    case _ => Enabled(sys, a)
  }

  lemma AllowedIsEnabled(market: MarketConfig, sys: System, a: Action)
    requires Inv(market, sys) && KeyedEntries(sys.log) && DistinctCommands(sys.log) && Allowed(sys, a)
    ensures Enabled(sys, a)
  {
    hide Inv, KeyedEntries, DistinctCommands, InsideWindow;
    if a.Redeliver? { RecentRedeliveryIsInsideWindow(market, sys, a.i); }
  }

  ghost predicate KeyedLog(sys: System) { KeyedEntries(sys.log) && DistinctCommands(sys.log) }

  ghost function NextAllowed(market: MarketConfig, sys: System, a: Action): System
    requires Inv(market, sys) && KeyedLog(sys) && Allowed(sys, a)
  {
    AllowedIsEnabled(market, sys, a);
    Next(market, sys, a)
  }

  /** The system after a sequence of allowed actions over a log whose commands have distinct
      ids. */
  ghost predicate ReachesKeyed(market: MarketConfig, actions: seq<Action>, sys: System)
  {
    if actions == [] then sys == INITIAL
    else
      var n := |actions| - 1;
      exists before ::
        && ReachesKeyed(market, actions[..n], before)
        && Inv(market, before) && KeyedLog(before) && Allowed(before, actions[n])
        && sys == NextAllowed(market, before, actions[n])
  }

  lemma {:induction false} KeyedReaches(market: MarketConfig, actions: seq<Action>, sys: System)
    requires ReachesKeyed(market, actions, sys)
    ensures Reaches(market, actions, sys)
  {
    if actions != [] {
      var n := |actions| - 1;
      var before :| ReachesKeyed(market, actions[..n], before) && Inv(market, before) && KeyedLog(before)
        && Allowed(before, actions[n]) && sys == NextAllowed(market, before, actions[n]);
      KeyedReaches(market, actions[..n], before);
      AllowedIsEnabled(market, before, actions[n]);
      hide Inv, Next, Enabled, Allowed, KeyedLog;
    }
  }

  /** The fold theorem with no reference to the engine's own evidence: for every
      interleaving over a log with distinct command ids in which no entry is redelivered
      after more than 50 000 others, a running engine's state is the genesis fold of a log
      prefix that holds everything handed out. */
  lemma KeyedStateIsAFoldOfTheLog(market: MarketConfig, actions: seq<Action>, sys: System)
    requires ReachesKeyed(market, actions, sys) && sys.process.Up?
    ensures LogOk(sys.log)
    ensures exists k :: sys.cursor <= k <= |sys.log| && Decodable(sys.log[..k])
                        && Alike(sys.process.s, Genesis(market, sys.log[..k]))
  {
    KeyedReaches(market, actions, sys);
    hide Reaches, ReachesKeyed, LogOk, Decodable, Alike, Genesis;
    StateIsAFoldOfTheLog(market, actions, sys);
  }

  /** Every allowed action extends every such execution. */
  lemma KeyedExecutionsExtend(market: MarketConfig, actions: seq<Action>, sys: System, a: Action)
    requires ReachesKeyed(market, actions, sys) && KeyedLog(sys) && Allowed(sys, a)
    ensures Inv(market, sys) && ReachesKeyed(market, actions + [a], NextAllowed(market, sys, a))
  {
    KeyedReaches(market, actions, sys);
    ReachableInv(market, actions, sys);
    var all := actions + [a];
    assert all[..|all| - 1] == actions;
    hide Inv, Next, Enabled, Allowed, KeyedLog, NextAllowed, Reaches;
  }
}
