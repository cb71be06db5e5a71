/** A run in which the dead-letter limit is missed, for every limit: after one refused
    dead-letter write the earlier of two pending messages hides the count of the later one,
    which is handed to the handler once more although it is past the limit. */
module MissedDeadLetter {
  import opened Consumers
  import opened DeadLetters

  /** One entry is claimed or read at a time, and no handler call succeeds. */
  function OptionsOf(limit: nat, idle: nat): Options { Options(1, limit, idle) }

  function TurnAt(appended: nat, now: nat, up: bool): Turn
  {
    Turn(appended, true, true, true, now, now, _ => false, if up then _ => Done else _ => Refused)
  }

  function TimeOf(k: nat, idle: nat): nat { if k == 0 then 0 else TimeOf(k - 1, idle) + idle }

  /** Two pending entries, nothing else to read. */
  function Two(a: nat, la: nat, b: nat, lb: nat, calls: seq<nat>): Group
  {
    Group(2, 2, [PendingEntry(0, a, la), PendingEntry(1, b, lb)], [], [], [], calls)
  }

  lemma NothingNew(g: Group, o: Options, t: Turn)
    requires g.cursor == g.logged && t.readOk
    ensures AfterNew(g, o, t) == Outcome(g, true)
  {
    assert NewMessages(g.cursor, 0) == [] && NewEntries(g.cursor, 0, t.readTime) == [];
    assert g.pel + [] == g.pel;
  }

  lemma OneMessage(g: Group, m: Message, o: Options, t: Turn)
    ensures DispatchAll(g, [m], o, t) == Dispatched(g, m, o, t)
  {
    assert [m][1..] == [];
  }

  lemma NoClaim(g: Group, o: Options, t: Turn)
    requires ClaimedIn(g, o, t) == [] && t.claims && t.claimReplies
    ensures AfterReclaim(g, o, t) == Outcome(g, true)
  {
    assert Redelivered(g.pel, [], t.claimTime) == g.pel;
    assert ClaimedMessages(g.pel, []) == [];
  }

  /** The first entry is idle: it alone is claimed, and its count is right. */
  lemma ClaimsFirst(a: nat, la: nat, b: nat, lb: nat, calls: seq<nat>, limit: nat, idle: nat, t: Turn)
    requires la + idle <= t.claimTime && t.claims && t.claimReplies
    ensures var g, o := Two(a, la, b, lb, calls), OptionsOf(limit, idle);
      && ClaimedIn(g, o, t) == [0]
      && AfterReclaim(g, o, t) == Dispatched(Two(a + 1, t.claimTime, b, lb, calls), Message(0, a + 1), o, t)
  {
    var g, o := Two(a, la, b, lb, calls), OptionsOf(limit, idle);
    assert Claimed(g.pel[1..], t.claimTime, idle, 0) == [];
    assert ClaimedIn(g, o, t) == [0];
    var pel := [PendingEntry(0, a + 1, t.claimTime), PendingEntry(1, b, lb)];
    assert Redelivered(g.pel, [0], t.claimTime) == pel;
    assert ClaimedMessages(pel, [0]) == [Message(0, a + 1)];
    OneMessage(g.(pel := pel), Message(0, a + 1), o, t);
  }

  /** Only the second entry is idle: it alone is claimed, and it counts as delivered once. */
  lemma ClaimsSecond(a: nat, la: nat, b: nat, lb: nat, calls: seq<nat>, limit: nat, idle: nat, t: Turn)
    requires t.claimTime < la + idle && lb + idle <= t.claimTime && t.claims && t.claimReplies
    ensures var g, o := Two(a, la, b, lb, calls), OptionsOf(limit, idle);
      && ClaimedIn(g, o, t) == [1]
      && AfterReclaim(g, o, t) == Dispatched(Two(a, la, b + 1, t.claimTime, calls), Message(1, 1), o, t)
  {
    var g, o := Two(a, la, b, lb, calls), OptionsOf(limit, idle);
    assert g.pel[1..] == [g.pel[1]] && g.pel[1..][1..] == [];
    assert Claimed(g.pel[1..], t.claimTime, idle, 1) == [1];
    assert ClaimedIn(g, o, t) == [1];
    var pel := [PendingEntry(0, a, la), PendingEntry(1, b + 1, t.claimTime)];
    assert Redelivered(g.pel, [1], t.claimTime) == pel;
    assert CountOf(pel[1..], 0, 1) == 1;
    assert ClaimedMessages(pel, [1]) == [Message(1, 1)];
    OneMessage(g.(pel := pel), Message(1, 1), o, t);
  }

  lemma SameGroup(g: Group)
    ensures Appended(g, 0) == g
  {
  }

  /** One entry delivered again, within what the lookup shows. */
  lemma FirstAgain(a: nat, la: nat, b: nat, lb: nat, calls: seq<nat>, limit: nat, idle: nat, now: nat)
    requires la + idle <= now && a + 1 <= limit
    ensures AfterTurn(Two(a, la, b, lb, calls), OptionsOf(limit, idle), TurnAt(0, now, true))
         == Two(a + 1, now, b, lb, calls + [0])
  {
    var g, o, t := Two(a, la, b, lb, calls), OptionsOf(limit, idle), TurnAt(0, now, true);
    ClaimsFirst(a, la, b, lb, calls, limit, idle, t);
    SameGroup(g);
    hide AfterReclaim, AfterNew;
    NothingNew(Two(a + 1, now, b, lb, calls + [0]), o, t);
  }

  lemma SecondAgain(a: nat, la: nat, b: nat, lb: nat, calls: seq<nat>, limit: nat, idle: nat, now: nat)
    requires now < la + idle && lb + idle <= now && 1 <= limit
    ensures var g, o, t := Two(a, la, b, lb, calls), OptionsOf(limit, idle), TurnAt(0, now, true);
      ClaimedIn(g, o, t) == [1] && AfterTurn(g, o, t) == Two(a, la, b + 1, now, calls + [1])
  {
    var g, o, t := Two(a, la, b, lb, calls), OptionsOf(limit, idle), TurnAt(0, now, true);
    ClaimsSecond(a, la, b, lb, calls, limit, idle, t);
    SameGroup(g);
    hide AfterReclaim, AfterNew, ClaimedIn;
    NothingNew(Two(a, la, b + 1, now, calls + [1]), o, t);
  }

  /** The first entry is past the limit, but the dead-letter stream refuses it. */
  lemma FirstRefused(a: nat, la: nat, b: nat, lb: nat, calls: seq<nat>, limit: nat, idle: nat, now: nat)
    requires la + idle <= now && limit < a + 1
    ensures AfterTurn(Two(a, la, b, lb, calls), OptionsOf(limit, idle), TurnAt(0, now, false))
         == Two(a + 1, now, b, lb, calls)
  {
    var g, o, t := Two(a, la, b, lb, calls), OptionsOf(limit, idle), TurnAt(0, now, false);
    ClaimsFirst(a, la, b, lb, calls, limit, idle, t);
    SameGroup(g);
    hide AfterReclaim, AfterNew;
  }

  lemma TwoTurns(g: Group, o: Options, t: Turn, u: Turn)
    requires g.cursor <= g.logged
    ensures AfterTurns(g, o, [t]) == AfterTurn(g, o, t)
    ensures AfterTurns(g, o, [t, u]) == AfterTurn(AfterTurn(g, o, t), o, u)
  {
    hide AfterTurn;
    assert [t][1..] == [] && [t, u][1..] == [u] && [u][1..] == [];
    assert AfterTurns(AfterTurn(g, o, t), o, [u]) == AfterTurns(AfterTurn(AfterTurn(g, o, t), o, u), o, []);
  }

  /** The two entries are read, one a turn, at time 0. */
  lemma Start(limit: nat, idle: nat)
    requires 1 <= limit && 1 <= idle
    ensures AfterTurns(EMPTY, OptionsOf(limit, idle), [TurnAt(2, 0, true), TurnAt(0, 0, true)]) == Two(1, 0, 1, 0, [0, 1])
  {
    var o, t, u := OptionsOf(limit, idle), TurnAt(2, 0, true), TurnAt(0, 0, true);
    var one := Group(2, 1, [PendingEntry(0, 1, 0)], [], [], [], [0]);
    var g0 := Appended(EMPTY, 2);
    NoClaim(g0, o, t);
    assert NewMessages(0, 1) == [Message(0, 1)] && NewEntries(0, 1, 0) == [PendingEntry(0, 1, 0)];
    assert [] + [PendingEntry(0, 1, 0)] == [PendingEntry(0, 1, 0)];
    OneMessage(AfterRead(g0, o, 0), Message(0, 1), o, t);
    assert AfterTurn(EMPTY, o, t) == one;
    SecondRead(limit, idle);
    hide AfterTurn;
    TwoTurns(EMPTY, o, t, u);
  }

  lemma SecondRead(limit: nat, idle: nat)
    requires 1 <= limit && 1 <= idle
    ensures AfterTurn(Group(2, 1, [PendingEntry(0, 1, 0)], [], [], [], [0]), OptionsOf(limit, idle), TurnAt(0, 0, true))
         == Two(1, 0, 1, 0, [0, 1])
  {
    var o, u := OptionsOf(limit, idle), TurnAt(0, 0, true);
    var one := Group(2, 1, [PendingEntry(0, 1, 0)], [], [], [], [0]);
    SameGroup(one);
    assert one.pel[1..] == [] && Claimed([], 0, idle, 1) == [];
    assert ClaimedIn(one, o, u) == [];
    NoClaim(one, o, u);
    assert one.pel + [PendingEntry(1, 1, 0)] == Two(1, 0, 1, 0, [0, 1]).pel;
    assert NewMessages(1, 1) == [Message(1, 1)] && NewEntries(1, 1, 0) == [PendingEntry(1, 1, 0)];
    OneMessage(AfterRead(one, o, 0), Message(1, 1), o, u);
  }

  /** k rounds, each delivering both entries once more. */
  function Rounds(k: nat, idle: nat): seq<Turn>
  {
    if k == 0 then [] else Rounds(k - 1, idle) + [TurnAt(0, TimeOf(k, idle), true), TurnAt(0, TimeOf(k, idle), true)]
  }

  function CallsAfter(k: nat): seq<nat> { if k == 0 then [0, 1] else CallsAfter(k - 1) + [0] + [1] }

  lemma {:induction false} AfterRounds(k: nat, limit: nat, idle: nat)
    requires k + 1 <= limit && 1 <= idle
    ensures AfterTurns(Two(1, 0, 1, 0, [0, 1]), OptionsOf(limit, idle), Rounds(k, idle))
         == Two(1 + k, TimeOf(k, idle), 1 + k, TimeOf(k, idle), CallsAfter(k))
  {
    if k != 0 {
      var o, at := OptionsOf(limit, idle), TimeOf(k, idle);
      var t := TurnAt(0, at, true);
      AfterRounds(k - 1, limit, idle);
      TurnsConcat(Two(1, 0, 1, 0, [0, 1]), o, Rounds(k - 1, idle), [t, t]);
      var last := TimeOf(k - 1, idle);
      FirstAgain(k, last, k, last, CallsAfter(k - 1), limit, idle, at);
      SecondAgain(k + 1, at, k, last, CallsAfter(k - 1) + [0], limit, idle, at);
      hide AfterTurn, TimeOf, AfterTurns;
      TwoTurns(Two(k, last, k, last, CallsAfter(k - 1)), o, t, t);
    }
  }

  /** The run: both are read and delivered up to the limit, then the first one is claimed
      once more and refused by the dead-letter stream. */
  function MissingRun(limit: nat, idle: nat): seq<Turn>
    requires 1 <= limit
  {
    [TurnAt(2, 0, true), TurnAt(0, 0, true)] + Rounds(limit - 1, idle) + [TurnAt(0, TimeOf(limit, idle), false)]
  }

  lemma AfterMissingRun(limit: nat, idle: nat)
    requires 1 <= limit && 1 <= idle
    ensures AfterTurns(EMPTY, OptionsOf(limit, idle), MissingRun(limit, idle))
         == Two(limit + 1, TimeOf(limit, idle), limit, TimeOf(limit - 1, idle), CallsAfter(limit - 1))
  {
    var o, k := OptionsOf(limit, idle), limit - 1;
    var start, rounds, end := [TurnAt(2, 0, true), TurnAt(0, 0, true)], Rounds(k, idle), [TurnAt(0, TimeOf(limit, idle), false)];
    Start(limit, idle);
    AfterRounds(k, limit, idle);
    TurnsConcat(EMPTY, o, start, rounds);
    TurnsConcat(EMPTY, o, start + rounds, end);
    FirstRefused(limit, TimeOf(k, idle), limit, TimeOf(k, idle), CallsAfter(k), limit, idle, TimeOf(limit, idle));
    hide AfterTurn, TimeOf, Rounds, AfterTurns;
    TwoTurns(Two(limit, TimeOf(k, idle), limit, TimeOf(k, idle), CallsAfter(k)), o, end[0], end[0]);
  }

  lemma HealthyTurn(appended: nat, now: nat)
    ensures Healthy(TurnAt(appended, now, true)) && TimesOf(TurnAt(appended, now, true), now)
    ensures TimesOf(TurnAt(appended, now, false), now)
  {
  }

  predicate TimesOf(t: Turn, now: nat) { t.claimTime == now == t.readTime }

  lemma LastTwo(a: Turn, b: Turn, now: nat)
    requires now <= a.claimTime <= a.readTime <= b.claimTime <= b.readTime
    ensures Clocked(now, [a, b]) && EndOf(now, [a, b]) == b.readTime
  {
    assert [a, b][1..] == [b] && [b][1..] == [];
  }

  /** The run itself is as it should be: time moves on, and one refusal apart every turn is
      healthy. */
  lemma MissingRunIsPlain(limit: nat, idle: nat)
    requires 1 <= limit
    ensures var ts, t := MissingRun(limit, idle), TurnAt(0, TimeOf(limit, idle), true);
      Clocked(0, ts + [t]) && Healthy(t) && forall i :: 0 <= i < |ts| - 1 ==> Healthy(ts[i])
  {
    hide Healthy, Clocked, Rounds, TimeOf, TurnAt, EndOf;
    var at, last := TimeOf(limit, idle), TimeOf(limit - 1, idle);
    var t, u, x, y := TurnAt(0, at, true), TurnAt(0, at, false), TurnAt(2, 0, true), TurnAt(0, 0, true);
    RoundsPlain(limit - 1, idle);
    HealthyTurn(2, 0);
    HealthyTurn(0, 0);
    HealthyTurn(0, at);
    TimeMoves(limit, idle);
    PlainRun(x, y, Rounds(limit - 1, idle), u, t, last);
  }

  lemma TimeMoves(k: nat, idle: nat)
    requires 1 <= k
    ensures TimeOf(k, idle) == TimeOf(k - 1, idle) + idle
  {
  }

  lemma PlainRun(x: Turn, y: Turn, rounds: seq<Turn>, u: Turn, t: Turn, last: nat)
    requires TimesOf(x, 0) && TimesOf(y, 0) && Healthy(x) && Healthy(y)
    requires Clocked(0, rounds) && EndOf(0, rounds) == last && forall i :: 0 <= i < |rounds| ==> Healthy(rounds[i])
    requires last <= u.claimTime == u.readTime == t.claimTime == t.readTime
    ensures var ts := [x, y] + rounds + [u];
      Clocked(0, ts + [t]) && forall i :: 0 <= i < |ts| - 1 ==> Healthy(ts[i])
  {
    hide Healthy, Clocked, EndOf;
    LastTwo(u, t, last);
    LastTwo(x, y, 0);
    ClockedConcat(0, rounds, [u, t], last);
    ClockedConcat(0, [x, y], rounds + [u, t], 0);
    Joined([x, y], rounds, u, t);
  }

  lemma Joined(start: seq<Turn>, rounds: seq<Turn>, u: Turn, t: Turn)
    requires (forall i :: 0 <= i < |start| ==> Healthy(start[i])) && (forall i :: 0 <= i < |rounds| ==> Healthy(rounds[i]))
    ensures var ts := start + rounds + [u];
      && ts + [t] == start + (rounds + [u, t])
      && forall i :: 0 <= i < |ts| - 1 ==> Healthy(ts[i])
  {
    hide Healthy;
  }

  lemma {:induction false} RoundsPlain(k: nat, idle: nat)
    ensures Clocked(0, Rounds(k, idle)) && EndOf(0, Rounds(k, idle)) == TimeOf(k, idle)
    ensures forall i :: 0 <= i < |Rounds(k, idle)| ==> Healthy(Rounds(k, idle)[i])
  {
    if k != 0 {
      RoundsPlain(k - 1, idle);
      var t := TurnAt(0, TimeOf(k, idle), true);
      HealthyTurn(0, TimeOf(k, idle));
      hide Healthy, Clocked;
      LastTwo(t, t, TimeOf(k - 1, idle));
      ClockedConcat(0, Rounds(k - 1, idle), [t, t], TimeOf(k - 1, idle));
    }
  }

  lemma {:induction false} ClockedConcat(now: nat, a: seq<Turn>, b: seq<Turn>, mid: nat)
    requires Clocked(now, a) && EndOf(now, a) <= mid && Clocked(mid, b)
    ensures Clocked(now, a + b)
    decreases |a|
  {
    if a == [] {
      assert a + b == b;
      ClockedEarlier(now, mid, b);
    } else {
      assert (a + b)[0] == a[0] && (a + b)[1..] == a[1..] + b;
      ClockedConcat(a[0].readTime, a[1..], b, mid);
    }
  }

  lemma ClockedEarlier(now: nat, mid: nat, b: seq<Turn>)
    requires now <= mid && Clocked(mid, b)
    ensures Clocked(now, b)
  {
  }

  /** For every limit there is a run from an empty group after which a message that has been
      delivered as often as the limit allows is claimed once more and, although now past the
      limit, handed to the handler again instead of being dead-lettered. Only one
      dead-letter write of an earlier message has failed. */
  lemma DeadLetterMissed(limit: nat, idle: nat)
    requires 1 <= limit && 1 <= idle
    ensures var o, ts, t := OptionsOf(limit, idle), MissingRun(limit, idle), TurnAt(0, TimeOf(limit, idle), true);
      && Clocked(0, ts + [t]) && Healthy(t) && (forall i :: 0 <= i < |ts| - 1 ==> Healthy(ts[i]))
      && var g := AfterTurns(EMPTY, o, ts);
      && |g.pel| == 2 && g.pel[1].id == 1 && g.pel[1].deliveries == limit
      && ClaimedIn(g, o, t) == [1]
      && var r := AfterTurn(g, o, t);
      && r.calls == g.calls + [1] && r.deadLetters == []
      && |r.pel| == 2 && r.pel[1].id == 1 && r.pel[1].deliveries == limit + 1
  {
    hide *;
    MissingRunIsPlain(limit, idle);
    AfterMissingRun(limit, idle);
    TimeMoves(limit, idle);
    var last, at, calls := TimeOf(limit - 1, idle), TimeOf(limit, idle), CallsAfter(limit - 1);
    SecondAgain(limit + 1, at, limit, last, calls, limit, idle, at);
    TwoFields(limit + 1, at, limit, last, calls);
    TwoFields(limit + 1, at, limit + 1, at, calls + [1]);
  }

  lemma TwoFields(a: nat, la: nat, b: nat, lb: nat, calls: seq<nat>)
    ensures var g := Two(a, la, b, lb, calls);
      |g.pel| == 2 && g.pel[1] == PendingEntry(1, b, lb) && g.calls == calls && g.deadLetters == [] && g.cursor <= g.logged
  {
  }
}
