/** When the consumer gives a message up. The limit is applied to a delivery count that is
    looked up among the first pending entries only, so it can be missed; with a healthy
    dead-letter stream it never is. */
module DeadLetters {
  import opened Money
  import opened Consumers

  // ----- What a batch does to each message -----

  /** How many messages of a batch are dealt with before giving one up fails. */
  function Reached(msgs: seq<Message>, o: Options, t: Turn): (n: nat)
    ensures n <= |msgs|
  {
    if msgs == [] || (o.maxDeliveries < msgs[0].deliveries && !t.dlq(msgs[0].id).Done?) then 0
    else 1 + Reached(msgs[1..], o, t)
  }

  predicate GivenUp(msgs: seq<Message>, o: Options, id: nat)
  {
    exists i :: 0 <= i < |msgs| && msgs[i].id == id && o.maxDeliveries < msgs[i].deliveries
  }

  predicate Tried(msgs: seq<Message>, o: Options, id: nat)
  {
    exists i :: 0 <= i < |msgs| && msgs[i].id == id && msgs[i].deliveries <= o.maxDeliveries
  }

  lemma FirstOrRest(m: Message, rest: seq<Message>, o: Options, id: nat)
    ensures GivenUp([m] + rest, o, id) <==> (m.id == id && o.maxDeliveries < m.deliveries) || GivenUp(rest, o, id)
    ensures Tried([m] + rest, o, id) <==> (m.id == id && m.deliveries <= o.maxDeliveries) || Tried(rest, o, id)
  {
    var msgs := [m] + rest;
    assert msgs[0] == m && forall i :: 0 < i < |msgs| ==> msgs[i] == rest[i - 1];
    assert forall i :: 0 <= i < |rest| ==> rest[i] == msgs[i + 1];
  }

  /** Of the messages reached, one is handed to the handler exactly if its recorded count is
      within the limit, acknowledged exactly if the handler then resolves, and dead-lettered
      exactly if the count is past the limit. The others are left as they were. */
  lemma {:induction false} Fates(g: Group, msgs: seq<Message>, o: Options, t: Turn, id: nat)
    ensures var r, reached := DispatchAll(g, msgs, o, t), msgs[..Reached(msgs, o, t)];
      && (r.completed <==> reached == msgs)
      && (id in r.group.deadLetters <==> id in g.deadLetters || GivenUp(reached, o, id))
      && (id in r.group.acked <==> id in g.acked || (Tried(reached, o, id) && t.resolves(id)))
      && (id in r.group.calls <==> id in g.calls || Tried(reached, o, id))
    decreases |msgs|
  {
    var n := Reached(msgs, o, t);
    if n == 0 {
      assert msgs[..n] == [] && !GivenUp([], o, id) && !Tried([], o, id);
    } else {
      assert msgs[..n] == [msgs[0]] + msgs[1..][..n - 1];
      FirstOrRest(msgs[0], msgs[1..][..n - 1], o, id);
      assert msgs == [msgs[0]] + msgs[1..];
      var d := Dispatched(g, msgs[0], o, t);
      hide GivenUp, Tried;
      Fates(d.group, msgs[1..], o, t, id);
    }
  }

  // ----- The looked-up count -----

  /** deliveryCounts is right for the first n pending entries and 1 for the others. */
  lemma {:induction false} CountIsRankLimited(pel: seq<PendingEntry>, n: nat, k: nat)
    requires Ascending(pel) && k < |pel|
    ensures CountOf(pel, n, pel[k].id) == if k < n then pel[k].deliveries else 1
  {
    if k != 0 && n != 0 {
      CountIsRankLimited(pel[1..], n - 1, k - 1);
    }
  }

  lemma {:induction false} TimesMember(s: seq<nat>, id: nat)
    ensures id in s <==> 0 < Times(s, id)
  {
    if s != [] { TimesMember(s[1..], id); }
  }

  lemma PendingOnly(g: Group, k: nat)
    requires Conserved(g) && k < |g.pel|
    ensures g.pel[k].id !in g.acked && g.pel[k].id !in g.deadLetters
  {
    var id := g.pel[k].id;
    assert id in Ids(g.pel) by { assert Ids(g.pel)[k] == id; }
    TimesMember(Ids(g.pel), id);
    TimesMember(g.acked, id);
    TimesMember(g.deadLetters, id);
    assert Places(g, id) == 1;
  }

  /** The claimed ids dealt with in a turn. */
  function Handed(g: Group, o: Options, t: Turn): (r: seq<nat>)
  {
    if t.claims && t.claimReplies then ClaimedIn(g, o, t)[..Reached(Reclaimed(g, o, t), o, t)] else []
  }

  /** The k-th pending entry, claimed, is past the limit and among the first as many pending
      entries as were claimed. */
  predicate SeenOverdue(g: Group, o: Options, t: Turn, k: nat)
    requires k < |g.pel|
  {
    k < |ClaimedIn(g, o, t)| && o.maxDeliveries < g.pel[k].deliveries + 1
  }

  lemma MessageOf(g: Group, o: Options, t: Turn, k: nat)
    requires Conserved(g) && k < |g.pel| && 1 <= o.maxDeliveries
    ensures var ids, msgs, id := ClaimedIn(g, o, t), Reclaimed(g, o, t), g.pel[k].id;
      && |msgs| == |ids|
      && (forall i :: 0 <= i < |ids| ==> msgs[i].id == ids[i])
      && (forall i :: 0 <= i < |ids| && ids[i] == id ==>
            (o.maxDeliveries < msgs[i].deliveries <==> SeenOverdue(g, o, t, k)))
  {
    var ids := ClaimedIn(g, o, t);
    var pel := AfterClaim(g, o, t).pel;
    CountIsRankLimited(pel, |ids|, k);
    hide Conserved, Claimed, CountOf;
  }

  /** What reclaiming does with the k-th pending entry: it is dead-lettered exactly if it is
      dealt with, its true count is past the limit and it ranks among the first as many
      pending entries as were claimed; otherwise, dealt with, it goes to the handler and is
      acknowledged exactly if that resolves. */
  lemma ReclaimFate(g: Group, o: Options, t: Turn, k: nat)
    requires Conserved(g) && k < |g.pel| && 1 <= o.maxDeliveries
    ensures var r, id := AfterReclaim(g, o, t).group, g.pel[k].id;
      && (id in r.deadLetters <==> id in Handed(g, o, t) && SeenOverdue(g, o, t, k))
      && (id in r.acked <==> id in Handed(g, o, t) && !SeenOverdue(g, o, t, k) && t.resolves(id))
  {
    PendingOnly(g, k);
    MessageOf(g, o, t, k);
    hide Conserved, Claimed, CountOf, Redelivered, SeenOverdue, Reached;
    if t.claims && t.claimReplies {
      var ids, msgs, id := ClaimedIn(g, o, t), Reclaimed(g, o, t), g.pel[k].id;
      var n := Reached(msgs, o, t);
      Fates(AfterClaim(g, o, t), msgs, o, t, id);
      FatesByIds(msgs[..n], ids[..n], o, id, SeenOverdue(g, o, t, k));
    }
  }

  lemma FatesByIds(msgs: seq<Message>, ids: seq<nat>, o: Options, id: nat, overdue: bool)
    requires |msgs| == |ids| && forall i :: 0 <= i < |ids| ==> msgs[i].id == ids[i]
    requires forall i :: 0 <= i < |ids| && ids[i] == id ==> (o.maxDeliveries < msgs[i].deliveries <==> overdue)
    ensures GivenUp(msgs, o, id) <==> id in ids && overdue
    ensures Tried(msgs, o, id) <==> id in ids && !overdue
  {
    if id in ids {
      var i :| 0 <= i < |ids| && ids[i] == id;
      assert msgs[i].id == id;
    }
  }

  // ----- With a healthy dead-letter stream nothing overdue is missed -----

  /** x has been delivered more often than y, or as often and not later. */
  predicate Ahead(x: PendingEntry, y: PendingEntry)
  {
    y.deliveries < x.deliveries || (x.deliveries == y.deliveries && x.lastDelivery <= y.lastDelivery)
  }

  /** No delivery lies in the future, and earlier entries are ahead of later ones. */
  ghost predicate Aged(pel: seq<PendingEntry>, now: nat)
  {
    && (forall x :: x in pel ==> 1 <= x.deliveries && x.lastDelivery <= now)
    && (forall x, y :: x in pel && y in pel && x.id < y.id ==> Ahead(x, y))
  }

  ghost predicate Within(pel: seq<PendingEntry>, o: Options)
  {
    forall x :: x in pel ==> x.deliveries <= o.maxDeliveries
  }

  /** A claim skips nothing idle before what it takes. */
  lemma {:induction false} ClaimTakesFirst(pel: seq<PendingEntry>, now: nat, claimIdle: nat, count: nat, i: nat, j: nat)
    requires Ascending(pel) && i <= j < |pel| && pel[j].id in Claimed(pel, now, claimIdle, count)
    ensures Idle(pel[j], now, claimIdle)
    ensures Idle(pel[i], now, claimIdle) ==> pel[i].id in Claimed(pel, now, claimIdle, count)
  {
    ClaimedFacts(pel[1..], now, claimIdle, count);
    if Idle(pel[0], now, claimIdle) {
      ClaimedFacts(pel[1..], now, claimIdle, count - 1);
    }
    LaterIds(pel);
    if j != 0 {
      var rest := if Idle(pel[0], now, claimIdle) then count - 1 else count;
      assert pel[j].id in Claimed(pel[1..], now, claimIdle, rest);
      ClaimTakesFirst(pel[1..], now, claimIdle, rest, if i == 0 then 0 else i - 1, j - 1);
    }
  }

  /** If everything up to a claimed entry is idle, its rank is within the claim. */
  lemma {:induction false} ClaimRank(pel: seq<PendingEntry>, now: nat, claimIdle: nat, count: nat, k: nat)
    requires Ascending(pel) && k < |pel| && pel[k].id in Claimed(pel, now, claimIdle, count)
    requires forall i :: 0 <= i <= k ==> Idle(pel[i], now, claimIdle)
    ensures k < |Claimed(pel, now, claimIdle, count)|
  {
    if k != 0 {
      assert pel[0].id < pel[k].id;
      ClaimRank(pel[1..], now, claimIdle, count - 1, k - 1);
    }
  }

  lemma AheadInOrder(pel: seq<PendingEntry>, now: nat, i: nat, j: nat)
    requires Ascending(pel) && Aged(pel, now) && i < j < |pel|
    ensures Ahead(pel[i], pel[j])
  {
    assert pel[i] in pel && pel[j] in pel;
  }

  /** A claimed entry past the limit ranks within the claim: everything before it has been
      delivered as often and not later, so it is idle too and claimed with it. */
  lemma OverdueRank(g: Group, o: Options, t: Turn, k: nat, now: nat)
    requires Ascending(g.pel) && Aged(g.pel, now) && Within(g.pel, o) && k < |g.pel|
    requires g.pel[k].id in ClaimedIn(g, o, t) && o.maxDeliveries < g.pel[k].deliveries + 1
    ensures SeenOverdue(g, o, t, k)
  {
    ClaimTakesFirst(g.pel, t.claimTime, o.claimIdle, o.count, k, k);
    forall i | 0 <= i <= k ensures Idle(g.pel[i], t.claimTime, o.claimIdle) {
      assert g.pel[i] in g.pel && g.pel[k] in g.pel;
      if i < k { AheadInOrder(g.pel, now, i, k); }
    }
    ClaimRank(g.pel, t.claimTime, o.claimIdle, o.count, k);
  }

  lemma ClaimAged(g: Group, o: Options, t: Turn, now: nat)
    requires Ascending(g.pel) && Aged(g.pel, now) && now <= t.claimTime
    ensures Aged(AfterClaim(g, o, t).pel, t.claimTime)
  {
    var ids := ClaimedIn(g, o, t);
    var pel := AfterClaim(g, o, t).pel;
    hide Claimed, Aged, Ascending;
    forall x | x in pel ensures 1 <= x.deliveries && x.lastDelivery <= t.claimTime {
      var i :| 0 <= i < |pel| && pel[i] == x;
      AgedEntry(g.pel, now, i);
    }
    forall x, y | x in pel && y in pel && x.id < y.id ensures Ahead(x, y) {
      var i :| 0 <= i < |pel| && pel[i] == x;
      var j :| 0 <= j < |pel| && pel[j] == y;
      InOrder(g.pel, i, j);
      AheadInOrder(g.pel, now, i, j);
      AgedEntry(g.pel, now, i);
      if y.id in ids { ClaimTakesFirst(g.pel, t.claimTime, o.claimIdle, o.count, i, j); }
    }
    FoldAged(pel, t.claimTime);
  }

  lemma AgedEntry(pel: seq<PendingEntry>, now: nat, i: nat)
    requires Aged(pel, now) && i < |pel|
    ensures 1 <= pel[i].deliveries && pel[i].lastDelivery <= now
  {
    assert pel[i] in pel;
  }

  lemma InOrder(pel: seq<PendingEntry>, i: nat, j: nat)
    requires Ascending(pel) && i < |pel| && j < |pel| && pel[i].id < pel[j].id
    ensures i < j
  {
  }

  lemma FoldAged(pel: seq<PendingEntry>, now: nat)
    requires forall x :: x in pel ==> 1 <= x.deliveries && x.lastDelivery <= now
    requires forall x, y :: x in pel && y in pel && x.id < y.id ==> Ahead(x, y)
    ensures Aged(pel, now)
  {
  }

  lemma {:induction false} WithoutSubset(pel: seq<PendingEntry>, id: nat)
    ensures forall x :: x in Without(pel, id) ==> x in pel
  {
    if pel != [] && pel[0].id != id {
      WithoutSubset(pel[1..], id);
      assert pel == [pel[0]] + pel[1..];
    }
  }

  /** Dispatching only removes pending entries. */
  lemma {:induction false} DispatchShrinks(g: Group, msgs: seq<Message>, o: Options, t: Turn)
    ensures forall x :: x in DispatchAll(g, msgs, o, t).group.pel ==> x in g.pel
    decreases |msgs|
  {
    if msgs != [] {
      WithoutSubset(g.pel, msgs[0].id);
      DispatchShrinks(Dispatched(g, msgs[0], o, t).group, msgs[1..], o, t);
    }
  }

  lemma SubsetAged(a: seq<PendingEntry>, b: seq<PendingEntry>, now: nat, later: nat)
    requires Aged(a, now) && now <= later && forall x :: x in b ==> x in a
    ensures Aged(b, later)
  {
  }

  /** The dead-letter stream is up and claims are answered; claims and reads may fail. */
  ghost predicate Healthy(t: Turn)
  {
    t.claimReplies && forall id :: t.dlq(id).Done?
  }

  lemma {:induction false} HealthyReachesAll(msgs: seq<Message>, o: Options, t: Turn)
    requires Healthy(t)
    ensures Reached(msgs, o, t) == |msgs|
  {
    if msgs != [] {
      assert t.dlq(msgs[0].id).Done?;
      HealthyReachesAll(msgs[1..], o, t);
    }
  }

  /** In a healthy turn every claimed message past the limit is dead-lettered, and no other. */
  lemma OverdueIsDeadLettered(g: Group, o: Options, t: Turn, k: nat, now: nat)
    requires Conserved(g) && Aged(g.pel, now) && Within(g.pel, o) && 1 <= o.maxDeliveries
    requires Healthy(t) && t.claims && k < |g.pel|
    ensures g.pel[k].id in AfterReclaim(g, o, t).group.deadLetters
       <==> g.pel[k].id in ClaimedIn(g, o, t) && o.maxDeliveries < g.pel[k].deliveries + 1
  {
    ConservedCursor(g);
    HealthyReachesAll(Reclaimed(g, o, t), o, t);
    assert ClaimedIn(g, o, t)[..|ClaimedIn(g, o, t)|] == ClaimedIn(g, o, t);
    assert Handed(g, o, t) == ClaimedIn(g, o, t);
    hide Conserved, AfterReclaim, Claimed, Healthy, Handed;
    ReclaimFate(g, o, t, k);
    if g.pel[k].id in ClaimedIn(g, o, t) && o.maxDeliveries < g.pel[k].deliveries + 1 {
      OverdueRank(g, o, t, k, now);
    }
  }

  lemma ReclaimWithin(g: Group, o: Options, t: Turn, now: nat)
    requires Conserved(g) && Aged(g.pel, now) && Within(g.pel, o) && 1 <= o.maxDeliveries
    requires Healthy(t) && now <= t.claimTime
    ensures var r := AfterReclaim(g, o, t).group; Aged(r.pel, t.claimTime) && Within(r.pel, o)
  {
    ConservedCursor(g);
    var r := AfterReclaim(g, o, t).group;
    if t.claims {
      ClaimAged(g, o, t, now);
      DispatchShrinks(AfterClaim(g, o, t), Reclaimed(g, o, t), o, t);
      SubsetAged(AfterClaim(g, o, t).pel, r.pel, t.claimTime, t.claimTime);
      ReclaimConserves(g, o, t);
      forall x | x in r.pel ensures x.deliveries <= o.maxDeliveries {
        KeptWithin(g, o, t, now, x);
      }
    } else {
      SubsetAged(g.pel, r.pel, now, t.claimTime);
    }
  }

  lemma KeptWithin(g: Group, o: Options, t: Turn, now: nat, x: PendingEntry)
    requires Conserved(g) && Aged(g.pel, now) && Within(g.pel, o) && 1 <= o.maxDeliveries
    requires Healthy(t) && t.claims
    requires x in AfterReclaim(g, o, t).group.pel && x in AfterClaim(g, o, t).pel
    ensures x.deliveries <= o.maxDeliveries
  {
    var r := AfterReclaim(g, o, t).group;
    var pel := AfterClaim(g, o, t).pel;
    var i :| 0 <= i < |pel| && pel[i] == x;
    var j :| 0 <= j < |r.pel| && r.pel[j] == x;
    assert g.pel[i] in g.pel && x.id == g.pel[i].id;
    OverdueIsDeadLettered(g, o, t, i, now);
    ReclaimConserves(g, o, t);
    PendingOnly(r, j);
    hide Conserved, Aged, AfterReclaim, Claimed;
  }

  lemma ReadWithin(g: Group, o: Options, t: Turn, now: nat)
    requires Conserved(g) && Aged(g.pel, now) && Within(g.pel, o) && 1 <= o.maxDeliveries && now <= t.readTime
    ensures g.cursor <= g.logged
    ensures var r := AfterNew(g, o, t).group; Aged(r.pel, t.readTime) && Within(r.pel, o)
  {
    ConservedCursor(g);
    var h := AfterRead(g, o, t.readTime);
    var more := NewEntries(g.cursor, NewCount(g, o), t.readTime);
    assert forall x :: x in g.pel ==> x.id < g.cursor;
    assert forall x :: x in more ==> g.cursor <= x.id && x.deliveries == 1 && x.lastDelivery == t.readTime;
    hide Conserved;
    forall x, y | x in h.pel && y in h.pel && x.id < y.id ensures Ahead(x, y) {
      assert x in g.pel || x in more;
      assert y in g.pel || y in more;
    }
    FoldAged(h.pel, t.readTime);
    DispatchShrinks(h, NewMessages(g.cursor, NewCount(g, o)), o, t);
    var r := AfterNew(g, o, t).group;
    if t.readOk { SubsetAged(h.pel, r.pel, t.readTime, t.readTime); } else { SubsetAged(g.pel, r.pel, now, t.readTime); }
  }

  /** The server's clock does not run backwards. */
  ghost predicate Clocked(now: nat, ts: seq<Turn>)
    decreases |ts|
  {
    ts != [] ==> now <= ts[0].claimTime <= ts[0].readTime && Clocked(ts[0].readTime, ts[1..])
  }

  function EndOf(now: nat, ts: seq<Turn>): nat { if ts == [] then now else ts[|ts| - 1].readTime }

  lemma TurnWithin(g: Group, o: Options, t: Turn, now: nat)
    requires Conserved(g) && Aged(g.pel, now) && Within(g.pel, o) && 1 <= o.maxDeliveries
    requires Healthy(t) && now <= t.claimTime <= t.readTime
    ensures g.cursor <= g.logged
    ensures var r := AfterTurn(g, o, t); Aged(r.pel, t.readTime) && Within(r.pel, o)
  {
    ConservedCursor(g);
    AppendConserves(g, t.appended);
    var g0 := Appended(g, t.appended);
    hide Conserved, Aged, Within, AfterReclaim, AfterNew, Healthy;
    ReclaimWithin(g0, o, t, now);
    ReclaimConserves(g0, o, t);
    var d := AfterReclaim(g0, o, t);
    ReadWithin(d.group, o, t, t.claimTime);
    SubsetAged(d.group.pel, d.group.pel, t.claimTime, t.readTime);
  }

  /** Over every healthy run no pending message has been delivered more often than the
      limit allows. */
  lemma {:induction false} NothingOverdueStays(g: Group, o: Options, ts: seq<Turn>, now: nat)
    requires Conserved(g) && Aged(g.pel, now) && Within(g.pel, o) && 1 <= o.maxDeliveries
    requires Clocked(now, ts) && forall i :: 0 <= i < |ts| ==> Healthy(ts[i])
    ensures g.cursor <= g.logged
    ensures var r := AfterTurns(g, o, ts); Conserved(r) && Aged(r.pel, EndOf(now, ts)) && Within(r.pel, o)
    decreases |ts|
  {
    ConservedCursor(g);
    hide Conserved, Aged, Within, AfterTurn, Healthy;
    if ts != [] {
      TurnWithin(g, o, ts[0], now);
      TurnConserves(g, o, ts[0]);
      NothingOverdueStays(AfterTurn(g, o, ts[0]), o, ts[1..], ts[0].readTime);
    }
  }

  /** For every run from an empty group in which the clock does not run backwards, claims are
      answered and the dead-letter stream is up: each message claimed beyond the limit is
      dead-lettered, and no other. */
  lemma HealthyRunsMissNothing(o: Options, ts: seq<Turn>, t: Turn, k: nat)
    requires 1 <= o.maxDeliveries && Clocked(0, ts) && forall i :: 0 <= i < |ts| ==> Healthy(ts[i])
    requires Healthy(t) && t.claims && k < |AfterTurns(EMPTY, o, ts).pel|
    ensures var g := AfterTurns(EMPTY, o, ts);
      (g.pel[k].id in AfterReclaim(g, o, t).group.deadLetters)
      == (g.pel[k].id in ClaimedIn(g, o, t) && o.maxDeliveries < g.pel[k].deliveries + 1)
  {
    assert Conserved(EMPTY);
    NothingOverdueStays(EMPTY, o, ts, 0);
    hide Conserved, Aged, Within, AfterTurns, AfterReclaim, Healthy;
    OverdueIsDeadLettered(AfterTurns(EMPTY, o, ts), o, t, k, EndOf(0, ts));
  }
}
