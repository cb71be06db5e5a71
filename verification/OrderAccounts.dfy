/** What an accepted order does to every account: its margin is locked, its trades are
    folded in one by one, and what is left of a market order is unlocked. */
module OrderAccounts {
  import opened Money
  import opened States
  import opened JsMaps
  import opened Accounts
  import opened EngineSpec
  import opened Book
  import opened Invariants
  import opened GreedyMatching
  import opened OrderOutcomes
  import opened FilledBook

  /** The part of an order's margin that backs a quantity of it. */
  function Part(quantity: int, whole: int, margin: int): int
    requires 0 < whole
  {
    if quantity == whole then margin else RoundDiv(quantity * margin, whole)
  }

  /** u's account after one trade with order x: as its owner, then as the taker. */
  function AfterTrade(a: Account, u: string, o: Place, x: Order, quantity: int, mmr: int): Account
    requires 0 < quantity <= x.remaining && 0 < o.quantity
  {
    var sold := Fill(x.side, x.price, quantity, Part(quantity, x.remaining, x.margin), x.leverage);
    var bought := Fill(o.side, x.price, quantity, Part(quantity, o.quantity, o.margin), o.leverage);
    var b := if u == x.userId then ApplyFill(a, sold, mmr) else a;
    if u == o.userId then ApplyFill(b, bought, mmr) else b
  }

  /** Trade i is with order i and no larger than it. */
  predicate Tradable(makers: seq<Order>, trades: seq<Execution>)
  {
    |trades| <= |makers| && forall i :: 0 <= i < |trades| ==> 0 < trades[i].quantity <= makers[i].remaining
  }

  function AfterTrades(a: Account, u: string, o: Place, makers: seq<Order>, trades: seq<Execution>, mmr: int): Account
    requires Tradable(makers, trades) && 0 < o.quantity
    decreases |trades|
  {
    if trades == [] then a
    else AfterTrades(AfterTrade(a, u, o, makers[0], trades[0].quantity, mmr), u, o, makers[1..], trades[1..], mmr)
  }

  lemma PartIs(quantity: int, whole: int, margin: int)
    requires 0 < whole
    ensures Part(quantity, whole, margin) == RoundDiv(quantity * margin, whole)
  {
    if quantity == whole {
      RoundDivExact(margin, whole);
      assert quantity * margin == margin * whole;
    }
  }

  lemma FilledAccount(o: Place, m: Matching, u: string)
    requires Ready(o, m) && CanFill(o, m) && Positive(Makers(o, m))
    ensures AccountOf(FilledState(o, m.s, FillQty(o, m)), u)
      == AfterTrade(AccountOf(m.s, u), u, o, Makers(o, m)[0], FillQty(o, m), m.s.market.maintenanceMarginRate)
    ensures FilledState(o, m.s, FillQty(o, m)).market == m.s.market
  {
    var x, q := Makers(o, m)[0], FillQty(o, m);
    PartIs(q, x.remaining, x.margin);
    PartIs(q, o.quantity, o.margin);
    hide Ready, ApplyFill, RoundDiv, MakersAfter, Part;
  }

  lemma GreedyTradable(o: Place, s: seq<Order>, quantity: int)
    requires SideOk(o.side.Opposite(), s) && 0 <= quantity
    ensures Tradable(s, GreedyTrades(o, s, quantity))
  {
    GreedyTakesPrefix(o, s, quantity);
    hide SideOk, GreedyTrades, Inside;
  }

  lemma FirstTrade(a: Account, u: string, o: Place, s: seq<Order>, e: Execution, rest: seq<Execution>, mmr: int)
    requires s != [] && 0 < o.quantity && Tradable(s, [e] + rest)
    ensures Tradable(s[1..], rest)
    ensures AfterTrades(a, u, o, s, [e] + rest, mmr)
      == AfterTrades(AfterTrade(a, u, o, s[0], e.quantity, mmr), u, o, s[1..], rest, mmr)
  {
    var trades := [e] + rest;
    assert trades[1..] == rest;
    forall i | 0 <= i < |rest| ensures 0 < rest[i].quantity <= s[1..][i].remaining {
      assert trades[i + 1] == rest[i] && s[1..][i] == s[i + 1];
    }
  }

  /** Folding goes on with what is left of the side. */
  lemma TradesRest(a: Account, u: string, o: Place, s: seq<Order>, quantity: int, mmr: int)
    requires s != [] && Positive(s) && 0 < quantity && 0 < o.quantity
    requires var q := Min(quantity, s[0].remaining);
      var rest := GreedyTrades(o, MakersAfter(s, q), quantity - q);
      Tradable(MakersAfter(s, q), rest) && Tradable(s[1..], rest)
    ensures var q := Min(quantity, s[0].remaining);
      var rest := GreedyTrades(o, MakersAfter(s, q), quantity - q);
      AfterTrades(a, u, o, MakersAfter(s, q), rest, mmr) == AfterTrades(a, u, o, s[1..], rest, mmr)
  {
    var q := Min(quantity, s[0].remaining);
    if q < s[0].remaining {
      NothingLeftToTake(o, MakersAfter(s, q));
    }
    hide AfterTrade;
  }

  /** From matching state m to n, after these trades. */
  ghost predicate Folded(o: Place, m: Matching, n: Matching, u: string)
    requires Positive(Makers(o, m)) && 0 < o.quantity
  {
    var trades := GreedyTrades(o, Makers(o, m), m.remaining);
    && Tradable(Makers(o, m), trades)
    && AccountOf(n.s, u)
       == AfterTrades(AccountOf(m.s, u), u, o, Makers(o, m), trades, m.s.market.maintenanceMarginRate)
  }

  lemma StepFolds(o: Place, ts: nat, m: Matching, u: string)
    requires Ready(o, m) && CanFill(o, m) && Positive(Makers(o, m)) && 0 < o.quantity
    ensures var s, q, n := Makers(o, m), Min(m.remaining, Makers(o, m)[0].remaining), FillStep(o, ts, m);
      && s != [] && 0 < m.remaining && 0 < q <= s[0].remaining
      && Makers(o, n) == MakersAfter(s, q) && n.remaining == m.remaining - q && n.s.market == m.s.market
      && AccountOf(n.s, u) == AfterTrade(AccountOf(m.s, u), u, o, s[0], q, m.s.market.maintenanceMarginRate)
  {
    FillsFirst(o, m);
    FilledAccount(o, m, u);
    FillStepShape(o, ts, m);
    hide FillStep, Ready, CanFill, FillQty, MakersAfter, AfterTrade, FilledState, StepDrafts, MakerLeg, TakerLeg, AccountOf;
  }

  lemma TradesJoin(a: Account, u: string, o: Place, s: seq<Order>, quantity: int, mmr: int)
    requires s != [] && Positive(s) && 0 < quantity && 0 < o.quantity && Inside(o, s[0].price)
    requires Tradable(s, GreedyTrades(o, s, quantity))
    requires var q := Min(quantity, s[0].remaining);
      Tradable(MakersAfter(s, q), GreedyTrades(o, MakersAfter(s, q), quantity - q))
    ensures var q := Min(quantity, s[0].remaining);
      0 < q <= s[0].remaining
      && AfterTrades(a, u, o, s, GreedyTrades(o, s, quantity), mmr)
         == AfterTrades(AfterTrade(a, u, o, s[0], q, mmr), u, o, MakersAfter(s, q),
                        GreedyTrades(o, MakersAfter(s, q), quantity - q), mmr)
  {
    var q := Min(quantity, s[0].remaining);
    assert 0 < q <= s[0].remaining;
    var e := ExecutionOf(s[0], q);
    assert e.quantity == q;
    hide AfterTrades, GreedyTrades, MakersAfter, AfterTrade, Tradable;
    var rest := GreedyTrades(o, MakersAfter(s, q), quantity - q);
    GreedyStep(o, s, quantity);
    FirstTrade(a, u, o, s, e, rest, mmr);
    TradesRest(AfterTrade(a, u, o, s[0], q, mmr), u, o, s, quantity, mmr);
  }

  lemma FoldsFrom(o: Place, ts: nat, m: Matching, n: Matching, u: string)
    requires Ready(o, m) && CanFill(o, m) && Positive(Makers(o, m)) && 0 < o.quantity
    requires Positive(Makers(o, FillStep(o, ts, m))) && Folded(o, FillStep(o, ts, m), n, u)
    ensures Folded(o, m, n, u)
  {
    hide FillStep, FillQty, Ready, CanFill, Positive, GreedyTrades, MakersAfter, AfterTrades, AfterTrade, Tradable,
      AccountOf, SideOk, Inside, Makers, Min, BookOk, UsersOk, AccountsOk, WellPlaced, Precedes;
    ReadyPositive(o, m);
    FillsFirst(o, m);
    GreedyTradable(o, Makers(o, m), m.remaining);
    StepFolds(o, ts, m, u);
    TradesJoin(AccountOf(m.s, u), u, o, Makers(o, m), m.remaining, m.s.market.maintenanceMarginRate);
  }

  lemma NothingFolded(o: Place, m: Matching, u: string)
    requires Ready(o, m) && !CanFill(o, m) && Positive(Makers(o, m)) && 0 < o.quantity
    ensures Folded(o, m, m, u)
  {
    ReadyPositive(o, m);
    if m.remaining == 0 {
      NothingLeftToTake(o, Makers(o, m));
    } else {
      NothingCrosses(o, Makers(o, m), m.remaining);
    }
  }

  lemma {:induction false} MatchFolds(o: Place, ts: nat, m: Matching, u: string)
    requires Ready(o, m) && Positive(Makers(o, m)) && 0 < o.quantity
    ensures Folded(o, m, MatchAll(o, ts, m), u)
    decreases |Makers(o, m)|, Max(0, m.remaining)
  {
    hide *;
    MatchUnfold(o, ts, m);
    if CanFill(o, m) {
      MatchFolds(o, ts, FillStep(o, ts, m), u);
      FoldsFrom(o, ts, m, MatchAll(o, ts, m), u);
    } else {
      NothingFolded(o, m, u);
    }
  }

  lemma {:induction false} EnsureAllAccounts(s: State, users: seq<string>, u: string)
    ensures AccountOf(EnsureAll(s, users), u) == AccountOf(s, u)
    decreases |users|
  {
    if users != [] {
      EnsureAllAccounts(EnsurePosition(s, users[0]), users[1..], u);
    }
  }

  function Locked(a: Account, u: string, o: Place): Account
  {
    if u != o.userId then a
    else a.(balance := a.balance.(free := a.balance.free - o.margin, locked := a.balance.locked + o.margin))
  }

  /** What is left of a market order gives its part of the margin back. */
  function Unlocked(a: Account, u: string, o: Place, left: int): Account
    requires 0 < o.quantity
  {
    if u != o.userId || o.orderType.LIMIT? || left <= 0 then a
    else
      var moved := Min(a.balance.locked, Max(0, Part(left, o.quantity, o.margin)));
      a.(balance := a.balance.(free := a.balance.free + moved, locked := a.balance.locked - moved))
  }

  lemma StartAccount(s: State, o: Place, u: string)
    ensures AccountOf(StartMatching(s, o).s, u) == Locked(AccountOf(s, u), u, o)
    ensures StartMatching(s, o).s.market == s.market
  {
  }

  lemma RemainderAccount(o: Place, ts: nat, m: Matching, u: string)
    requires 0 < o.quantity
    ensures AccountOf(HandleRemainder(o, ts, m).s, u) == Unlocked(AccountOf(m.s, u), u, o, m.remaining)
  {
    PartIs(m.remaining, o.quantity, o.margin);
    hide RestingOrder, Insert, Part, RoundDiv;
  }

  /** Every account after an accepted order: margin locked, trades folded in order, each
      with its part of both margins, and a market order's rest unlocked. */
  lemma OrderFoldsItsTrades(s: State, o: Place, ts: nat, c: Option<string>, u: string)
    requires Accepted(s, o)
    ensures var (t, drafts) := OnPlaceOrder(s, o, ts, c);
      var trades := TradesOf(drafts);
      && Tradable(Others(s, o), trades)
      && AccountOf(t, u)
         == Unlocked(AfterTrades(Locked(AccountOf(s, u), u, o), u, o, Others(s, o), trades, s.market.maintenanceMarginRate),
                     u, o, o.quantity - TotalQuantity(trades))
  {
    hide *;
    AcceptedIs(s, o, ts, c);
    TradesAre(s, o, ts, c);
    BookIs(s, o, ts, c);
    StartAccount(s, o, u);
    MatchedAccount(s, o, ts, c, u);
    MatchFolds(o, ts, StartMatching(s, o), u);
    FoldedFromStart(s, o, MatchAll(o, ts, StartMatching(s, o)), u);
    RemainderAccount(o, ts, MatchAll(o, ts, StartMatching(s, o)), u);
  }

  lemma MatchedAccount(s: State, o: Place, ts: nat, c: Option<string>, u: string)
    requires Placeable(s, o) && Positive(s.Orders(o.side.Opposite()))
    ensures Ready(o, StartMatching(s, o)) && Positive(Makers(o, StartMatching(s, o)))
    ensures AccountOf(OnPlaceOrder(s, o, ts, c).0, u)
      == AccountOf(HandleRemainder(o, ts, MatchAll(o, ts, StartMatching(s, o))).s, u)
  {
    StartMatchingReady(s, o);
    var r := Executed(s, o, ts);
    EnsureAllAccounts(r.s, r.affected, u);
    hide Wf, Refusal, MatchAll, StartMatching, EnsureAll, OrderDrafts, Ready, HandleRemainder, AccountOf;
  }

  lemma FoldedFromStart(s: State, o: Place, n: Matching, u: string)
    requires 0 < o.quantity && Positive(Makers(o, StartMatching(s, o))) && Folded(o, StartMatching(s, o), n, u)
    ensures var trades := GreedyTrades(o, Others(s, o), o.quantity);
      && Tradable(Others(s, o), trades)
      && AccountOf(n.s, u)
         == AfterTrades(AccountOf(StartMatching(s, o).s, u), u, o, Others(s, o), trades, s.market.maintenanceMarginRate)
  {
    StartIs(s, o);
    OthersIs(s, o);
    hide AfterTrades, GreedyTrades, Tradable, AccountOf;
  }
}
