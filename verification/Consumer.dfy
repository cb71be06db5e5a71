/** The at-least-once consumer over a stream's consumer group: claiming abandoned
    messages, reading new ones, acknowledging and dead-lettering. Entries are named by
    their position in the stream. */
module Consumers {
  import opened Money

  /** A pending entry as the server keeps it: how often and when it was last delivered. */
  datatype PendingEntry = PendingEntry(id: nat, deliveries: nat, lastDelivery: nat)

  datatype Message = Message(id: nat, deliveries: nat)

  datatype Options = Options(count: nat, maxDeliveries: nat, claimIdle: nat)

  /** What the group, the dead-letter stream and the handler have seen. `dlq` holds the
      copies written there, `calls` the handler's invocations. */
  datatype Group = Group(logged: nat, cursor: nat, pel: seq<PendingEntry>, acked: seq<nat>, deadLetters: seq<nat>,
                         dlq: seq<nat>, calls: seq<nat>)

  const EMPTY := Group(0, 0, [], [], [], [], [])

  /** Giving a message up: the copy is refused, or it is written but the acknowledgement
      fails, or both succeed. */
  datatype DlqOutcome = Refused | CopyOnly | Done

  /** What one turn of the loop meets: entries appended before it, whether the server takes
      the claim, whether its reply and the delivery counts arrive, whether the read
      succeeds, the server's clock at both, and how handler and dead-letter stream answer. */
  datatype Turn = Turn(appended: nat, claims: bool, claimReplies: bool, readOk: bool, claimTime: nat, readTime: nat,
                       resolves: nat -> bool, dlq: nat -> DlqOutcome)

  datatype Outcome = Outcome(group: Group, completed: bool)

  function Ids(pel: seq<PendingEntry>): (r: seq<nat>)
    ensures |r| == |pel| && forall i :: 0 <= i < |pel| ==> r[i] == pel[i].id
  {
    if pel == [] then [] else [pel[0].id] + Ids(pel[1..])
  }

  // ----- Claiming -----

  predicate Idle(x: PendingEntry, now: nat, claimIdle: nat) { x.lastDelivery + claimIdle <= now }

  /** XAUTOCLAIM ... claimIdle 0 COUNT count: the first idle entries. */
  function Claimed(pel: seq<PendingEntry>, now: nat, claimIdle: nat, count: nat): seq<nat>
  {
    if pel == [] || count == 0 then []
    else if Idle(pel[0], now, claimIdle) then [pel[0].id] + Claimed(pel[1..], now, claimIdle, count - 1)
    else Claimed(pel[1..], now, claimIdle, count)
  }

  function ClaimedIn(g: Group, o: Options, t: Turn): seq<nat> { Claimed(g.pel, t.claimTime, o.claimIdle, o.count) }

  /** The server counts one more delivery, now, for every claimed entry. */
  function Redelivered(pel: seq<PendingEntry>, ids: seq<nat>, now: nat): seq<PendingEntry>
  {
    seq(|pel|, i requires 0 <= i < |pel| =>
      if pel[i].id in ids then PendingEntry(pel[i].id, pel[i].deliveries + 1, now) else pel[i])
  }

  /** The count deliveryCounts finds for an id: it reads the first n pending entries of the
      whole group, and an id beyond them counts as delivered once. */
  function CountOf(pel: seq<PendingEntry>, n: nat, id: nat): nat
  {
    if n == 0 || pel == [] then 1 else if pel[0].id == id then pel[0].deliveries else CountOf(pel[1..], n - 1, id)
  }

  function ClaimedMessages(pel: seq<PendingEntry>, ids: seq<nat>): seq<Message>
  {
    seq(|ids|, i requires 0 <= i < |ids| => Message(ids[i], CountOf(pel, |ids|, ids[i])))
  }

  // ----- Dispatching -----

  function Without(pel: seq<PendingEntry>, id: nat): seq<PendingEntry>
  {
    if pel == [] then [] else if pel[0].id == id then pel[1..] else [pel[0]] + Without(pel[1..], id)
  }

  function Dispatched(g: Group, msg: Message, o: Options, t: Turn): Outcome
  {
    if o.maxDeliveries < msg.deliveries then
      match t.dlq(msg.id)
      case Refused => Outcome(g, false)
      case CopyOnly => Outcome(g.(dlq := g.dlq + [msg.id]), false)
      case Done =>
        Outcome(g.(pel := Without(g.pel, msg.id), dlq := g.dlq + [msg.id], deadLetters := g.deadLetters + [msg.id]), true)
    else if t.resolves(msg.id) then
      Outcome(g.(pel := Without(g.pel, msg.id), acked := g.acked + [msg.id], calls := g.calls + [msg.id]), true)
    else Outcome(g.(calls := g.calls + [msg.id]), true)
  }

  /** One message after the other, until giving one up fails. */
  function DispatchAll(g: Group, msgs: seq<Message>, o: Options, t: Turn): Outcome
    decreases |msgs|
  {
    if msgs == [] then Outcome(g, true)
    else
      var d := Dispatched(g, msgs[0], o, t);
      if d.completed then DispatchAll(d.group, msgs[1..], o, t) else d
  }

  // ----- One turn of the loop -----

  function NewMessages(cursor: nat, n: nat): seq<Message>
  {
    seq(n, i requires 0 <= i < n => Message(cursor + i, 1))
  }

  function NewEntries(cursor: nat, n: nat, now: nat): seq<PendingEntry>
  {
    seq(n, i requires 0 <= i < n => PendingEntry(cursor + i, 1, now))
  }

  function NewCount(g: Group, o: Options): nat
    requires g.cursor <= g.logged
  {
    Min(o.count, g.logged - g.cursor)
  }

  /** The group after the server has taken the claim. */
  function AfterClaim(g: Group, o: Options, t: Turn): Group
  {
    g.(pel := Redelivered(g.pel, ClaimedIn(g, o, t), t.claimTime))
  }

  function Reclaimed(g: Group, o: Options, t: Turn): seq<Message>
  {
    ClaimedMessages(AfterClaim(g, o, t).pel, ClaimedIn(g, o, t))
  }

  function AfterReclaim(g: Group, o: Options, t: Turn): Outcome
  {
    if !t.claims then Outcome(g, false)
    else if !t.claimReplies then Outcome(AfterClaim(g, o, t), false)
    else DispatchAll(AfterClaim(g, o, t), Reclaimed(g, o, t), o, t)
  }

  function AfterRead(g: Group, o: Options, now: nat): Group
    requires g.cursor <= g.logged
  {
    g.(cursor := g.cursor + NewCount(g, o), pel := g.pel + NewEntries(g.cursor, NewCount(g, o), now))
  }

  function AfterNew(g: Group, o: Options, t: Turn): Outcome
    requires g.cursor <= g.logged
  {
    if !t.readOk then Outcome(g, false)
    else DispatchAll(AfterRead(g, o, t.readTime), NewMessages(g.cursor, NewCount(g, o)), o, t)
  }

  /** Positions are untouched by dispatching. */
  lemma {:induction false} DispatchKeepsCursor(g: Group, msgs: seq<Message>, o: Options, t: Turn)
    ensures var r := DispatchAll(g, msgs, o, t).group; r.cursor == g.cursor && r.logged == g.logged
    decreases |msgs|
  {
    if msgs != [] {
      DispatchKeepsCursor(Dispatched(g, msgs[0], o, t).group, msgs[1..], o, t);
    }
  }

  function Appended(g: Group, n: nat): Group { g.(logged := g.logged + n) }

  function AfterTurn(g: Group, o: Options, t: Turn): (r: Group)
    requires g.cursor <= g.logged
    ensures r.cursor <= r.logged
  {
    var g0 := Appended(g, t.appended);
    var d := AfterReclaim(g0, o, t);
    DispatchKeepsCursor(AfterClaim(g0, o, t), Reclaimed(g0, o, t), o, t);
    if d.completed then
      DispatchKeepsCursor(AfterRead(d.group, o, t.readTime), NewMessages(d.group.cursor, NewCount(d.group, o)), o, t);
      AfterNew(d.group, o, t).group
    else d.group
  }

  function AfterTurns(g: Group, o: Options, ts: seq<Turn>): (r: Group)
    requires g.cursor <= g.logged
    ensures r.cursor <= r.logged
    decreases |ts|
  {
    if ts == [] then g else AfterTurns(AfterTurn(g, o, ts[0]), o, ts[1..])
  }

  lemma {:induction false} TurnsConcat(g: Group, o: Options, a: seq<Turn>, b: seq<Turn>)
    requires g.cursor <= g.logged
    ensures AfterTurns(g, o, a + b) == AfterTurns(AfterTurns(g, o, a), o, b)
    decreases |a|
  {
    if a == [] {
      assert a + b == b;
    } else {
      assert (a + b)[0] == a[0] && (a + b)[1..] == a[1..] + b;
      TurnsConcat(AfterTurn(g, o, a[0]), o, a[1..], b);
    }
  }

  // ----- The consumer -----

  class StreamConsumer {
    const options: Options
    var logged: nat
    var cursor: nat
    var pel: seq<PendingEntry>
    var acked: seq<nat>
    var deadLetters: seq<nat>
    var dlq: seq<nat>
    ghost var calls: seq<nat>

    constructor (options: Options)
      ensures this.options == options
      ensures Model() == EMPTY && Conserved(Model())
      ensures Firsts(calls) == Upto(cursor)
    {
      this.options := options;
      logged, cursor, pel, acked, deadLetters, dlq, calls := 0, 0, [], [], [], [], [];
    }

    ghost function Model(): Group
      reads this
    {
      Group(logged, cursor, pel, acked, deadLetters, dlq, calls)
    }

    /** Hand one message to the handler, or give it up. False if a client error ends the turn. */
    method Dispatch(msg: Message, t: Turn) returns (ok: bool)
      modifies this`pel, this`acked, this`deadLetters, this`dlq, this`calls
      ensures Outcome(Model(), ok) == Dispatched(old(Model()), msg, options, t)
    {
      if options.maxDeliveries < msg.deliveries {
        var outcome := t.dlq(msg.id);
        if outcome.Refused? { return false; }
        dlq := dlq + [msg.id];
        if outcome.CopyOnly? { return false; }
        deadLetters := deadLetters + [msg.id];
        pel := Without(pel, msg.id);
        return true;
      }
      calls := calls + [msg.id];
      if t.resolves(msg.id) {
        acked := acked + [msg.id];
        pel := Without(pel, msg.id);
      }
      return true;
    }

    method DispatchBatch(msgs: seq<Message>, t: Turn) returns (ok: bool)
      modifies this`pel, this`acked, this`deadLetters, this`dlq, this`calls
      ensures Outcome(Model(), ok) == DispatchAll(old(Model()), msgs, options, t)
    {
      for i := 0 to |msgs|
        invariant DispatchAll(Model(), msgs[i..], options, t) == DispatchAll(old(Model()), msgs, options, t)
      {
        assert msgs[i..][0] == msgs[i] && msgs[i..][1..] == msgs[i + 1..];
        ok := Dispatch(msgs[i], t);
        if !ok { return; }
      }
      assert msgs[|msgs|..] == [];
      ok := true;
    }

    /** Claim what is idle and look the delivery counts up. */
    method ReclaimAbandoned(t: Turn) returns (msgs: seq<Message>)
      modifies this`pel
      ensures Model() == AfterClaim(old(Model()), options, t) && msgs == Reclaimed(old(Model()), options, t)
    {
      var ids := Claimed(pel, t.claimTime, options.claimIdle, options.count);
      pel := Redelivered(pel, ids, t.claimTime);
      msgs := ClaimedMessages(pel, ids);
    }

    method ReadNew(t: Turn) returns (msgs: seq<Message>)
      requires cursor <= logged
      modifies this`pel, this`cursor
      ensures Model() == AfterRead(old(Model()), options, t.readTime)
      ensures msgs == NewMessages(old(cursor), NewCount(old(Model()), options))
    {
      var n := Min(options.count, logged - cursor);
      msgs := NewMessages(cursor, n);
      pel := pel + NewEntries(cursor, n, t.readTime);
      cursor := cursor + n;
    }

    /** The loop, for as many turns as it is left running. */
    method Start(turns: seq<Turn>)
      requires Conserved(Model())
      modifies this
      ensures cursor <= logged && Model() == AfterTurns(old(Model()), options, turns)
      ensures Conserved(Model())
    {
      EveryEntryHasOnePlace(Model(), options, turns);
      hide Conserved;
      for i := 0 to |turns|
        invariant cursor <= logged
        invariant AfterTurns(Model(), options, turns[i..]) == AfterTurns(old(Model()), options, turns)
      {
        assert turns[i..][0] == turns[i] && turns[i..][1..] == turns[i + 1..];
        OneTurn(turns[i]);
      }
      assert turns[|turns|..] == [];
    }

    /** One turn; a client error ends it early and the loop goes on. */
    method OneTurn(t: Turn)
      requires cursor <= logged
      modifies this
      ensures cursor <= logged && Model() == AfterTurn(old(Model()), options, t)
    {
      hide DispatchAll, Claimed, Redelivered, ClaimedMessages, NewMessages, NewEntries;
      logged := logged + t.appended;
      if !t.claims { return; }
      var claimed := ReclaimAbandoned(t);
      if !t.claimReplies { return; }
      DispatchKeepsCursor(Model(), claimed, options, t);
      var ok := DispatchBatch(claimed, t);
      if !ok || !t.readOk { return; }
      var batch := ReadNew(t);
      DispatchKeepsCursor(Model(), batch, options, t);
      var _ := DispatchBatch(batch, t);
    }
  }

  // ----- Every entry has one place -----

  predicate Ascending(pel: seq<PendingEntry>) { forall i, j :: 0 <= i < j < |pel| ==> pel[i].id < pel[j].id }

  /** How often an entry is held: pending, acknowledged or dead-lettered. */
  function Places(g: Group, id: nat): nat
  {
    Times(Ids(g.pel), id) + Times(g.acked, id) + Times(g.deadLetters, id)
  }

  function Times(s: seq<nat>, id: nat): nat
  {
    if s == [] then 0 else (if s[0] == id then 1 else 0) + Times(s[1..], id)
  }

  lemma {:induction false} TimesConcat(a: seq<nat>, b: seq<nat>, id: nat)
    ensures Times(a + b, id) == Times(a, id) + Times(b, id)
  {
    if a == [] {
      assert a + b == b;
    } else {
      assert (a + b)[1..] == a[1..] + b;
      TimesConcat(a[1..], b, id);
    }
  }

  lemma TimesAppend(s: seq<nat>, x: nat, id: nat)
    ensures Times(s + [x], id) == Times(s, id) + (if x == id then 1 else 0)
  {
    TimesConcat(s, [x], id);
  }

  /** Every entry handed out is in exactly one place, no other entry is in any, and what is
      dead-lettered has a copy. */
  ghost predicate Conserved(g: Group)
  {
    && g.cursor <= g.logged
    && Ascending(g.pel)
    && (forall i :: 0 <= i < |g.pel| ==> g.pel[i].id < g.cursor)
    && (forall id: nat :: Places(g, id) == if id < g.cursor then 1 else 0)
    && (forall id :: id in g.deadLetters ==> id in g.dlq)
  }

  lemma {:induction false} WithoutTimes(pel: seq<PendingEntry>, id: nat, x: nat)
    requires id in Ids(pel)
    ensures Times(Ids(Without(pel, id)), x) == Times(Ids(pel), x) - (if x == id then 1 else 0)
  {
    if pel[0].id != id {
      WithoutTimes(pel[1..], id, x);
      var r := Without(pel[1..], id);
      assert ([pel[0]] + r)[1..] == r;
    }
  }

  lemma {:induction false} WithoutMembers(pel: seq<PendingEntry>, id: nat)
    requires Ascending(pel)
    ensures Ascending(Without(pel, id))
    ensures forall x :: x in Without(pel, id) <==> x in pel && x.id != id
  {
    if pel != [] {
      assert pel == [pel[0]] + pel[1..];
      if pel[0].id != id {
        WithoutMembers(pel[1..], id);
        var r := Without(pel[1..], id);
        forall j | 0 <= j < |r| ensures pel[0].id < r[j].id { assert r[j] in r; }
      }
    }
  }

  /** The messages still to be dispatched are distinct and pending. */
  ghost predicate InFlight(g: Group, msgs: seq<Message>)
  {
    && (forall i :: 0 <= i < |msgs| ==> msgs[i].id in Ids(g.pel))
    && (forall i, j :: 0 <= i < j < |msgs| ==> msgs[i].id != msgs[j].id)
  }

  lemma PendingEntryOf(pel: seq<PendingEntry>, id: nat) returns (k: nat)
    requires id in Ids(pel)
    ensures k < |pel| && pel[k].id == id
  {
    k :| 0 <= k < |pel| && Ids(pel)[k] == id;
  }

  lemma WithoutKeepsOthers(pel: seq<PendingEntry>, gone: nat, id: nat)
    requires Ascending(pel) && id in Ids(pel) && id != gone
    ensures id in Ids(Without(pel, gone))
  {
    hide Without, Ids, Ascending;
    var k := PendingEntryOf(pel, id);
    WithoutMembers(pel, gone);
    assert pel[k] in Without(pel, gone);
    var r := Without(pel, gone);
    var j :| 0 <= j < |r| && r[j] == pel[k];
    assert Ids(r)[j] == id;
  }

  lemma DispatchedConserves(g: Group, msg: Message, o: Options, t: Turn)
    requires Conserved(g) && msg.id in Ids(g.pel)
    ensures Conserved(Dispatched(g, msg, o, t).group)
  {
    hide Without, Ids, Ascending, Times;
    WithoutMembers(g.pel, msg.id);
    var r, gone := Dispatched(g, msg, o, t).group, Without(g.pel, msg.id);
    forall i | 0 <= i < |gone| ensures gone[i].id < g.cursor { assert gone[i] in gone; }
    forall id: nat ensures Places(r, id) == Places(g, id) {
      WithoutTimes(g.pel, msg.id, id);
      TimesAppend(g.acked, msg.id, id);
      TimesAppend(g.deadLetters, msg.id, id);
    }
  }

  lemma StillInFlight(g: Group, msgs: seq<Message>, o: Options, t: Turn)
    requires Conserved(g) && InFlight(g, msgs) && msgs != []
    ensures InFlight(Dispatched(g, msgs[0], o, t).group, msgs[1..])
  {
    var d := Dispatched(g, msgs[0], o, t);
    forall i | 0 <= i < |msgs[1..]| ensures msgs[1..][i].id in Ids(d.group.pel) {
      WithoutKeepsOthers(g.pel, msgs[0].id, msgs[i + 1].id);
    }
  }

  lemma {:induction false} DispatchConserves(g: Group, msgs: seq<Message>, o: Options, t: Turn)
    requires Conserved(g) && InFlight(g, msgs)
    ensures Conserved(DispatchAll(g, msgs, o, t).group)
    decreases |msgs|
  {
    if msgs != [] {
      DispatchedConserves(g, msgs[0], o, t);
      StillInFlight(g, msgs, o, t);
      hide Conserved, Dispatched, InFlight;
      DispatchConserves(Dispatched(g, msgs[0], o, t).group, msgs[1..], o, t);
    }
  }

  lemma LaterIds(pel: seq<PendingEntry>)
    requires Ascending(pel) && pel != []
    ensures Ids(pel) == [pel[0].id] + Ids(pel[1..])
    ensures forall id :: id in Ids(pel[1..]) ==> pel[0].id < id && id in Ids(pel)
  {
    forall id | id in Ids(pel[1..]) ensures pel[0].id < id {
      var k := PendingEntryOf(pel[1..], id);
    }
  }

  /** A claim takes distinct pending entries, in order. */
  lemma {:induction false} ClaimedFacts(pel: seq<PendingEntry>, now: nat, claimIdle: nat, count: nat)
    requires Ascending(pel)
    ensures var ids := Claimed(pel, now, claimIdle, count);
      && |ids| <= count
      && (forall i :: 0 <= i < |ids| ==> ids[i] in Ids(pel))
      && (forall i, j :: 0 <= i < j < |ids| ==> ids[i] < ids[j])
  {
    if pel != [] && count != 0 {
      var take := Idle(pel[0], now, claimIdle);
      ClaimedFacts(pel[1..], now, claimIdle, if take then count - 1 else count);
      LaterIds(pel);
      hide Ids, Ascending, Idle;
    }
  }

  lemma RedeliveredIds(pel: seq<PendingEntry>, ids: seq<nat>, now: nat)
    ensures Ids(Redelivered(pel, ids, now)) == Ids(pel)
  {
  }

  lemma SamePlaces(g: Group, pel: seq<PendingEntry>)
    requires Conserved(g) && Ids(pel) == Ids(g.pel)
    ensures Conserved(g.(pel := pel))
  {
    assert |pel| == |g.pel|;
    forall i | 0 <= i < |pel| ensures pel[i].id == g.pel[i].id {
      assert Ids(pel)[i] == Ids(g.pel)[i];
    }
    forall id: nat ensures Places(g.(pel := pel), id) == Places(g, id) {}
  }

  lemma ClaimConserves(g: Group, o: Options, t: Turn)
    requires Conserved(g)
    ensures Conserved(AfterClaim(g, o, t)) && InFlight(AfterClaim(g, o, t), Reclaimed(g, o, t))
  {
    var ids := ClaimedIn(g, o, t);
    ClaimedFacts(g.pel, t.claimTime, o.claimIdle, o.count);
    RedeliveredIds(g.pel, ids, t.claimTime);
    SamePlaces(g, AfterClaim(g, o, t).pel);
    hide Conserved, Claimed, Redelivered, Ids, CountOf;
    var msgs := Reclaimed(g, o, t);
    forall i | 0 <= i < |msgs| ensures msgs[i].id == ids[i] {}
  }

  lemma ReclaimConserves(g: Group, o: Options, t: Turn)
    requires Conserved(g)
    ensures Conserved(AfterReclaim(g, o, t).group)
  {
    ClaimConserves(g, o, t);
    hide Conserved, AfterClaim, Reclaimed, InFlight;
    DispatchConserves(AfterClaim(g, o, t), Reclaimed(g, o, t), o, t);
  }

  lemma {:induction false} IdsConcat(a: seq<PendingEntry>, b: seq<PendingEntry>)
    ensures Ids(a + b) == Ids(a) + Ids(b)
  {
    if a == [] {
      assert a + b == b;
    } else {
      assert (a + b)[1..] == a[1..] + b;
      IdsConcat(a[1..], b);
    }
  }

  /** The ids of newly read entries are those from the cursor on, once each. */
  lemma {:induction false} NewIds(cursor: nat, n: nat, now: nat, id: nat)
    ensures Times(Ids(NewEntries(cursor, n, now)), id) == if cursor <= id < cursor + n then 1 else 0
    decreases n
  {
    if n != 0 {
      NewIds(cursor + 1, n - 1, now, id);
      assert NewEntries(cursor, n, now)[1..] == NewEntries(cursor + 1, n - 1, now);
    }
  }

  lemma ReadConserves(g: Group, o: Options, now: nat)
    requires Conserved(g)
    ensures Conserved(AfterRead(g, o, now))
  {
    hide Ids, Times;
    var n, r := NewCount(g, o), AfterRead(g, o, now);
    var more := NewEntries(g.cursor, n, now);
    forall id: nat ensures Places(r, id) == if id < r.cursor then 1 else 0 {
      IdsConcat(g.pel, more);
      TimesConcat(Ids(g.pel), Ids(more), id);
      NewIds(g.cursor, n, now, id);
      assert Places(g, id) == if id < g.cursor then 1 else 0;
    }
  }

  lemma ReadInFlight(g: Group, o: Options, now: nat)
    requires g.cursor <= g.logged
    ensures InFlight(AfterRead(g, o, now), NewMessages(g.cursor, NewCount(g, o)))
  {
    hide Ids;
    var n, r := NewCount(g, o), AfterRead(g, o, now);
    var msgs := NewMessages(g.cursor, n);
    forall i | 0 <= i < n ensures msgs[i].id in Ids(r.pel) {
      assert Ids(r.pel)[|g.pel| + i] == msgs[i].id;
    }
  }

  lemma NewConserves(g: Group, o: Options, t: Turn)
    requires Conserved(g)
    ensures Conserved(AfterNew(g, o, t).group)
  {
    ReadConserves(g, o, t.readTime);
    ReadInFlight(g, o, t.readTime);
    hide Conserved, InFlight, AfterRead, NewMessages;
    if t.readOk { DispatchConserves(AfterRead(g, o, t.readTime), NewMessages(g.cursor, NewCount(g, o)), o, t); }
  }

  lemma AppendConserves(g: Group, n: nat)
    requires Conserved(g)
    ensures Conserved(Appended(g, n))
  {
    hide Ids, Times;
    assert forall id: nat :: Places(Appended(g, n), id) == Places(g, id);
  }

  lemma ConservedCursor(g: Group)
    requires Conserved(g)
    ensures g.cursor <= g.logged && Ascending(g.pel)
  {
  }

  lemma TurnConserves(g: Group, o: Options, t: Turn)
    requires Conserved(g)
    ensures g.cursor <= g.logged && Conserved(AfterTurn(g, o, t))
  {
    hide Conserved, AfterReclaim, AfterNew, Appended;
    ConservedCursor(g);
    AppendConserves(g, t.appended);
    ReclaimConserves(Appended(g, t.appended), o, t);
    var d := AfterReclaim(Appended(g, t.appended), o, t);
    ConservedCursor(d.group);
    NewConserves(d.group, o, t);
  }

  /** Over any number of turns: every entry handed out is pending, acknowledged or
      dead-lettered, exactly one of them and only once; nothing is lost or kept twice. */
  lemma {:induction false} EveryEntryHasOnePlace(g: Group, o: Options, ts: seq<Turn>)
    requires Conserved(g)
    ensures g.cursor <= g.logged && Conserved(AfterTurns(g, o, ts))
    decreases |ts|
  {
    hide Conserved, AfterTurn;
    ConservedCursor(g);
    if ts != [] {
      TurnConserves(g, o, ts[0]);
      EveryEntryHasOnePlace(AfterTurn(g, o, ts[0]), o, ts[1..]);
    }
  }

  // ----- The handler sees the log in order -----

  /** A list without its repetitions. */
  function Firsts(s: seq<nat>): seq<nat>
  {
    if s == [] then []
    else
      var n := |s| - 1;
      if s[n] in s[..n] then Firsts(s[..n]) else Firsts(s[..n]) + [s[n]]
  }

  function Upto(n: nat): (r: seq<nat>)
    ensures forall x: nat :: x in r <==> x < n
  {
    if n == 0 then [] else Upto(n - 1) + [n - 1]
  }

  lemma {:induction false} FirstsMembers(s: seq<nat>)
    ensures forall x :: x in Firsts(s) <==> x in s
  {
    if s != [] {
      var n := |s| - 1;
      assert s == s[..n] + [s[n]];
      FirstsMembers(s[..n]);
    }
  }

  lemma FirstsAppend(s: seq<nat>, x: nat)
    ensures Firsts(s + [x]) == if x in s then Firsts(s) else Firsts(s) + [x]
  {
    assert (s + [x])[..|s + [x]| - 1] == s;
  }

  lemma {:induction false} RepeatedCalls(g: Group, msgs: seq<Message>, o: Options, t: Turn, k: nat)
    requires Firsts(g.calls) == Upto(k) && forall i :: 0 <= i < |msgs| ==> msgs[i].id < k
    ensures Firsts(DispatchAll(g, msgs, o, t).group.calls) == Upto(k)
    decreases |msgs|
  {
    if msgs != [] {
      var d := Dispatched(g, msgs[0], o, t);
      FirstsMembers(g.calls);
      FirstsAppend(g.calls, msgs[0].id);
      hide Firsts, Upto;
      RepeatedCalls(d.group, msgs[1..], o, t, k);
    }
  }

  lemma NewCall(g: Group, k: nat, o: Options, t: Turn)
    requires Firsts(g.calls) == Upto(k) && 1 <= o.maxDeliveries
    ensures var d := Dispatched(g, Message(k, 1), o, t);
      d.completed && Firsts(d.group.calls) == Upto(k + 1)
  {
    FirstsMembers(g.calls);
    FirstsAppend(g.calls, k);
    hide Firsts;
  }

  lemma {:induction false} NewCalls(g: Group, k: nat, n: nat, o: Options, t: Turn)
    requires Firsts(g.calls) == Upto(k) && 1 <= o.maxDeliveries
    ensures Firsts(DispatchAll(g, NewMessages(k, n), o, t).group.calls) == Upto(k + n)
    decreases n
  {
    if n != 0 {
      var msgs := NewMessages(k, n);
      NewCall(g, k, o, t);
      assert msgs[0] == Message(k, 1) && msgs[1..] == NewMessages(k + 1, n - 1);
      hide Firsts, Upto, NewMessages, Dispatched;
      var d := Dispatched(g, msgs[0], o, t);
      NewCalls(d.group, k + 1, n - 1, o, t);
    }
  }

  /** Claimed messages are among those handed out. */
  lemma ReclaimedBelow(g: Group, o: Options, t: Turn, msgs: seq<Message>)
    requires Conserved(g) && msgs == Reclaimed(g, o, t)
    ensures forall i :: 0 <= i < |msgs| ==> msgs[i].id < g.cursor
  {
    ClaimConserves(g, o, t);
    var h := AfterClaim(g, o, t);
    assert h.cursor == g.cursor;
    hide AfterClaim, Reclaimed, Ids, Times, Ascending;
    forall i | 0 <= i < |msgs| ensures msgs[i].id < g.cursor {
      var k := PendingEntryOf(h.pel, msgs[i].id);
    }
  }

  lemma ReclaimCalls(g: Group, o: Options, t: Turn)
    requires Conserved(g) && Firsts(g.calls) == Upto(g.cursor)
    ensures var r := AfterReclaim(g, o, t).group;
      Firsts(r.calls) == Upto(r.cursor) && r.cursor == g.cursor <= r.logged
  {
    var msgs := Reclaimed(g, o, t);
    ReclaimedBelow(g, o, t, msgs);
    hide Reclaimed, Redelivered, Firsts, Upto, DispatchAll, Ids, Times;
    RepeatedCalls(AfterClaim(g, o, t), msgs, o, t, g.cursor);
    DispatchKeepsCursor(AfterClaim(g, o, t), msgs, o, t);
  }

  lemma ReadCalls(g: Group, o: Options, t: Turn)
    requires g.cursor <= g.logged && Firsts(g.calls) == Upto(g.cursor) && 1 <= o.maxDeliveries
    ensures var r := AfterNew(g, o, t).group; Firsts(r.calls) == Upto(r.cursor)
  {
    hide Firsts, Upto, DispatchAll, NewMessages, NewEntries;
    var n := NewCount(g, o);
    NewCalls(AfterRead(g, o, t.readTime), g.cursor, n, o, t);
    DispatchKeepsCursor(AfterRead(g, o, t.readTime), NewMessages(g.cursor, n), o, t);
  }

  lemma TurnCalls(g: Group, o: Options, t: Turn)
    requires Conserved(g) && Firsts(g.calls) == Upto(g.cursor) && 1 <= o.maxDeliveries
    ensures g.cursor <= g.logged
    ensures var r := AfterTurn(g, o, t); Firsts(r.calls) == Upto(r.cursor)
  {
    AppendConserves(g, t.appended);
    ConservedCursor(g);
    hide Conserved, Firsts, Upto, AfterReclaim, AfterNew;
    var g0 := Appended(g, t.appended);
    ReclaimCalls(g0, o, t);
    ReadCalls(AfterReclaim(g0, o, t).group, o, t);
  }

  /** Over any number of turns the handler first meets the entries in stream order, without
      a gap: repetitions apart, its calls are exactly the entries handed out. */
  lemma {:induction false} FirstCallsFollowTheLog(g: Group, o: Options, ts: seq<Turn>)
    requires Conserved(g) && Firsts(g.calls) == Upto(g.cursor) && 1 <= o.maxDeliveries
    ensures g.cursor <= g.logged
    ensures var r := AfterTurns(g, o, ts); Firsts(r.calls) == Upto(r.cursor)
    decreases |ts|
  {
    hide Conserved, Firsts, Upto, AfterTurn;
    ConservedCursor(g);
    if ts != [] {
      TurnConserves(g, o, ts[0]);
      TurnCalls(g, o, ts[0]);
      FirstCallsFollowTheLog(AfterTurn(g, o, ts[0]), o, ts[1..]);
    }
  }
}
