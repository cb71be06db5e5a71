/** The engine process: recovery from snapshots and log, the live handler, and the store
    of snapshot files. Its methods compute the steps of the Recovery system. */
module Runtime {
  import opened Money
  import opened States
  import opened JsMaps
  import opened EngineSpec
  import opened Invariants
  import opened Snapshots
  import opened SnapshotFiles
  import opened Recovery
  import Paging
  import opened Engines

  const SNAPSHOT_EVERY_EVENTS := 500
  const PAGE_SIZE := 500

  /** A Start step from this file brings the process up as p. */
  ghost predicate Starts(market: MarketConfig, sys: System, from: Option<nat>, p: Process)
  {
    Inv(market, sys) && Enabled(sys, Start(from)) && Next(market, sys, Start(from)) == sys.(process := p)
  }

  /** The first valid file of the list, if there is one. */
  predicate NewestValid(files: seq<File>, loaded: Option<nat>)
  {
    && (loaded.Some? ==> loaded.value < |files| && files[loaded.value].Valid?)
    && (forall i :: 0 <= i < (if loaded.Some? then loaded.value else |files|) && i < |files| ==> files[i].Corrupt?)
  }

  /** The files after a snapshot of s was written at that time, if it was. */
  function Saved(files: seq<File>, savedAt: Option<nat>, s: State): seq<File>
    requires s.balances.Ok() && s.positions.Ok()
  {
    if savedAt.None? then files else Prune(AddFile(FileOf(Serialize(s), savedAt.value), files))
  }

  /** Snapshot files, newest first. */
  class SnapshotStore {
    var files: seq<File>

    constructor ()
      ensures files == []
    {
      files := [];
    }

    /** Write a file, then delete all but the newest. */
    method Save(x: Serialized, savedAt: nat)
      modifies this
      ensures files == Prune(AddFile(FileOf(x, savedAt), old(files)))
      ensures NewestFirst(old(files)) ==> NewestFirst(files) && |files| <= RETAIN
    {
      ghost var all := AddFile(FileOf(x, savedAt), files);
      if NewestFirst(files) { SaveKeepsNewest(FileOf(x, savedAt), files); }
      hide AddFile, NewestFirst;
      files := AddFile(FileOf(x, savedAt), files);
      while RETAIN < |files|
        invariant Prune(files) == Prune(all)
      {
        files := files[..|files| - 1];
      }
    }

    /** The newest file that passes its checksum, or none. */
    method LoadLatest() returns (loaded: Option<nat>)
      ensures NewestValid(files, loaded)
    {
      for i := 0 to |files|
        invariant forall j :: 0 <= j < i ==> files[j].Corrupt?
      {
        if files[i].Valid? { return Some(i); }
      }
      return None;
    }
  }

  class EngineRuntime {
    const market: MarketConfig
    const store: SnapshotStore
    var engine: Engine
    var replayedThrough: StreamId
    var dirtySinceSnapshot: nat

    constructor (market: MarketConfig, store: SnapshotStore)
      ensures this.store == store && this.market == market && fresh(engine) && fresh(engine.state)
      ensures Valid() && engine.state.Model() == CreateState(market)
    {
      this.market, this.store := market, store;
      engine := new Engine(market);
      replayedThrough, dirtySinceSnapshot := ZERO_ID, 0;
    }

    ghost predicate Valid()
      reads this, engine, engine.state
    {
      engine.state.Valid()
    }

    /** The process as the step system sees it. */
    ghost function Running(): Process
      reads this, engine, engine.state
    {
      Up(engine.state.Model(), replayedThrough)
    }

    /** A new process over this log and these files. */
    ghost predicate Fresh(sys: System, log: seq<Entry>)
      reads this, engine, engine.state, store
    {
      && Inv(market, sys) && sys.process.Down? && sys.log == log && sys.files == store.files
      && Valid() && engine.state.Model() == CreateState(market)
    }

    /** Load the newest valid snapshot, then replay the log after it. The log may grow while
        it is read: `visible(k)` entries exist at the k-th read, and `seen` at the last. The
        effect is the Start step of the Recovery system, from the newest valid file, taken
        after the entries seen have been appended. */
    method Recover(log: seq<Entry>, visible: nat -> nat, ghost sys: System) returns (from: Option<nat>, ghost seen: nat)
      requires LogOk(log) && forall k :: visible(k) <= |log|
      requires forall j, k :: j <= k ==> visible(j) <= visible(k)
      requires Fresh(sys, log[..visible(0)])
      modifies this, engine.state
      ensures Valid() && fresh({engine.state} - {old(engine.state)})
      ensures visible(0) <= seen <= |log| && Starts(market, sys.(log := log[..seen]), from, Running())
      ensures NewestValid(store.files, from)
    {
      ghost var sys0 := sys;
      hide Inv, Starts, Wf, Deserialize, Replay, LogOk, After;
      from := store.LoadLatest();
      StartLoads(market, sys, from);
      if from.Some? {
        engine := new Engine.FromSnapshot(store.files[from.value].saved);
      }
      ghost var s := engine.state.Model();
      var entries, rounds := Paging.ReadRange(log, visible, engine.state.lastInputId, PAGE_SIZE);
      seen := visible(rounds - 1);
      GrowthKeepsInv(market, sys, log, seen);
      StartsFrom(market, sys.(log := log[..seen]), from, s);
      hide Enabled;
      ReplayEntries(entries);
      replayedThrough := engine.state.lastInputId;
    }

    /** What recovery does from a loaded state. */
    static lemma StartsFrom(market: MarketConfig, sys: System, from: Option<nat>, s: State)
      requires Inv(market, sys) && Enabled(sys, Start(from)) && Wf(s)
      requires if from.None? then s == CreateState(market)
               else Deserialize(sys.files[from.value].saved) == Some(s)
      ensures LogOk(sys.log) && Decodable(After(sys.log, s.lastInputId))
      ensures var t := Replay(s, After(sys.log, s.lastInputId));
        Starts(market, sys, from, Up(t, t.lastInputId))
    {
      StartTracks(market, sys, from);
      NextStart(market, sys, from);
      hide Inv, Enabled, Next, Wf, Deserialize, Replay, After, Tracks, Decodable, LogOk;
    }

    /** The replay loop: process what decodes, step over what does not. */
    method ReplayEntries(entries: seq<Entry>)
      requires Valid() && Decodable(entries)
      modifies engine.state
      ensures Valid() && Wf(old(engine.state.Model()))
      ensures engine.state.Model() == Replay(old(engine.state.Model()), entries)
    {
      ghost var s := engine.state.Model();
      assert Wf(s);
      for i := 0 to |entries|
        invariant Valid() && Decodable(entries[..i])
        invariant engine.state.Model() == Replay(s, entries[..i])
      {
        ReplayNext(s, entries, i);
        ghost var t := engine.state.Model();
        hide Wf, Replay, Step, Decodable, Positive;
        if entries[i].event.Some? {
          var _ := engine.Process(entries[i].event.value, entries[i].id);
        } else {
          engine.state.lastInputId := entries[i].id;
        }
        assert engine.state.Model() == ReplayStep(t, entries[i]);
      }
      assert entries[..|entries|] == entries;
    }

    /** Publish in order until the output stream fails, after `accepted` events. */
    method Publish(outputs: seq<Output>, accepted: nat) returns (published: seq<Output>, ok: bool)
      ensures published == outputs[..Min(accepted, |outputs|)] && ok == (|outputs| <= accepted)
    {
      published := [];
      for i := 0 to |outputs|
        invariant i <= accepted && published == outputs[..i]
      {
        if i == accepted { return published, false; }
        published := published + [outputs[i]];
      }
      ok := true;
    }

    /** Handle one message from the group. True means: acknowledge it. The output stream
        takes `accepted` events; a snapshot, if due, is written at `savedAt` or fails. */
    method HandleMessage(x: Entry, accepted: nat, savedAt: Option<nat>) returns (ack: bool, published: seq<Output>)
      requires Valid() && (x.event.Some? ==> x.event.value.Admitted())
      modifies this`dirtySinceSnapshot, engine.state, store
      ensures Valid() && Wf(old(engine.state.Model()))
      ensures var live := IdLess(replayedThrough, x.id) && x.event.Some?;
        var outputs := if live then Outputs(old(engine.state.Model()), x.event.value) else [];
        var due := live && |outputs| <= accepted && SNAPSHOT_EVERY_EVENTS <= old(dirtySinceSnapshot) + 1;
        && Running() == HandledBy(old(Running()), x)
        && ack == Acked(old(Running()), x, |outputs| <= accepted)
        && published == outputs[..Min(accepted, |outputs|)]
        && store.files == Saved(old(store.files), if due then savedAt else None, engine.state.Model())
        && dirtySinceSnapshot == (if due && savedAt.Some? then 0
                                  else old(dirtySinceSnapshot) + (if live && |outputs| <= accepted then 1 else 0))
    {
      published := [];
      assert Wf(engine.state.Model());
      hide Wf, Step, Outputs;
      if !IdLess(replayedThrough, x.id) { return true, []; }
      if x.event.None? { return false, []; }
      var outputs := engine.Process(x.event.value, x.id);
      published, ack := Publish(outputs, accepted);
      if !ack { return; }
      dirtySinceSnapshot := dirtySinceSnapshot + 1;
      if SNAPSHOT_EVERY_EVENTS <= dirtySinceSnapshot {
        SaveSnapshot(savedAt);
      }
    }

    /** Write a snapshot; if that fails, nothing changes and it is due again. */
    method SaveSnapshot(savedAt: Option<nat>)
      requires Valid()
      modifies store, this`dirtySinceSnapshot
      ensures Wf(engine.state.Model())
      ensures store.files == Saved(old(store.files), savedAt, engine.state.Model())
      ensures dirtySinceSnapshot == if savedAt.Some? then 0 else old(dirtySinceSnapshot)
    {
      var x := engine.Snapshot();
      if savedAt.None? { return; }
      store.Save(x, savedAt.value);
      dirtySinceSnapshot := 0;
    }
  }
}
