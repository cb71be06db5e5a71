/** Which orders are accepted, told from the state before, with the margin test as the
    real formula the source evaluates. */
module Acceptance {
  import opened Money
  import opened States
  import opened JsMaps
  import opened EngineSpec
  import opened Book
  import opened Invariants
  import Accounts
  import Risk

  /** The tolerance of the margin and free-balance tests, in amounts. */
  const SLACK := 0.000001

  /** The price that a margin requirement is taken at: the limit, else the best opposite
      price, else the mark. */
  ghost predicate ReferencePrice(s: State, o: Place, p: int)
  {
    var others := if o.side.Bid? then s.asks else s.bids;
    if o.orderType.LIMIT? then p == o.price
    else if others == [] then p == s.markPrice
    else BestFor(o.side, others, p)
  }

  /** p is the best of the prices in s for a taker on this side. */
  ghost predicate BestFor(taker: Side, s: seq<Order>, p: int)
  {
    && (exists i :: 0 <= i < |s| && s[i].price == p)
    && (forall i :: 0 <= i < |s| ==> if taker.Bid? then p <= s[i].price else s[i].price <= p)
  }

  predicate Known(s: State, o: Place) { o.userId in s.balances.at }

  predicate LeverageAllowed(s: State, o: Place) { 0 < o.leverage <= s.market.maxLeverage }

  predicate MarginAllowed(s: State, o: Place) { s.market.minMargin <= o.margin }

  /** The margin covers the requirement at price p and the order's leverage. */
  predicate Covered(o: Place, p: int)
    requires 0 < o.leverage
  {
    0 < p ==> Risk.RoundedMargin(p, o.quantity, o.leverage) <= Value(o.margin) + SLACK
  }

  predicate Funded(s: State, o: Place)
    requires Known(s, o)
  {
    Value(o.margin) <= Value(s.balances.at[o.userId].free) + SLACK
  }

  predicate Acceptable(s: State, o: Place, p: int)
  {
    Known(s, o) && LeverageAllowed(s, o) && MarginAllowed(s, o) && Covered(o, p) && Funded(s, o)
  }

  ghost predicate Accepts(s: State, o: Place)
  {
    exists p :: ReferencePrice(s, o, p) && Acceptable(s, o, p)
  }

  /** The order is reported as accepted, at the end of the drafts. */
  predicate ReportsAccepted(o: Place, drafts: seq<Draft>)
  {
    drafts != []
    && var last := drafts[|drafts| - 1];
       last.OrderAccepted? && last.orderId == o.orderId && last.userId == o.userId
  }

  function Refused(o: Place, c: Option<string>, reason: Reason): seq<Draft>
  {
    [OrderRejected(o.orderId, o.userId, reason),
     CommandRejected(match c case Some(id) => id case None => o.orderId, reason)]
  }

  lemma FirstIsBest(taker: Side, s: seq<Order>, p: int)
    requires SideOk(taker.Opposite(), s) && s != []
    ensures BestFor(taker, s, p) <==> p == s[0].price
  {
    forall i | 0 < i < |s| ensures if taker.Bid? then s[0].price <= s[i].price else s[i].price <= s[0].price {
      assert Precedes(taker.Opposite(), s[0], s[i]);
    }
  }

  lemma ReferenceIs(s: State, o: Place, p: int)
    requires Wf(s)
    ensures ReferencePrice(s, o, p) <==> p == RefPrice(s, o)
  {
    var others := if o.side.Bid? then s.asks else s.bids;
    assert others == s.Orders(o.side.Opposite());
    if others != [] { FirstIsBest(o.side, others, p); }
  }

  lemma Scaled(x: real, y: real)
    ensures x / 100000000.0 <= y / 100000000.0 <==> x <= y
  {
  }

  lemma SlackIs(a: int, b: int)
    ensures Value(a) <= Value(b) + SLACK <==> a <= b + Accounts.TOLERANCE
  {
    var x, y := a as real, b as real;
    assert Value(a) == x / 100000000.0 && Value(b) + SLACK == (y + 100.0) / 100000000.0;
    Scaled(x, y + 100.0);
  }

  lemma CoveredIs(o: Place, p: int)
    requires 0 < o.leverage
    ensures Covered(o, p)
       <==> !(0 < p && Risk.Short(o.margin + Accounts.TOLERANCE, Risk.RequiredMargin(p, o.quantity, o.leverage)))
  {
    var r := Risk.RequiredMargin(p, o.quantity, o.leverage).value;
    Risk.RequiredMarginIsRounded(p, o.quantity, o.leverage);
    SlackIs(r, o.margin);
    hide Risk.RoundedMargin, Value, Risk.RequiredMargin;
  }

  lemma FundedIs(s: State, o: Place)
    requires Known(s, o)
    ensures Funded(s, o) <==> Accounts.CanLock(s.BalanceOf(o.userId), o.margin)
  {
    SlackIs(o.margin, s.balances.at[o.userId].free);
  }

  /** The first test that fails. */
  lemma RefusalIs(s: State, o: Place, p: int)
    requires Wf(s) && ReferencePrice(s, o, p)
    ensures !Known(s, o) ==> Refusal(s, o) == Some(UserDoesNotExist)
    ensures Known(s, o) && !LeverageAllowed(s, o) ==> Refusal(s, o) == Some(LeverageOutOfRange(s.market.maxLeverage))
    ensures Known(s, o) && LeverageAllowed(s, o) ==>
      Refusal(s, o) == if !MarginAllowed(s, o) then Some(MarginBelowMinimum(s.market.minMargin))
                       else if !Covered(o, p) then Some(MarginInsufficient)
                       else if !Funded(s, o) then Some(InsufficientFreeBalance) else None
  {
    ReferenceIs(s, o, p);
    hide Wf, ReferencePrice, Covered, Funded, RefPrice, Risk.RequiredMargin, Accounts.CanLock, Risk.Short;
    if Known(s, o) && LeverageAllowed(s, o) {
      CoveredIs(o, p);
      FundedIs(s, o);
    }
  }

  lemma AcceptableIs(s: State, o: Place, p: int)
    requires Wf(s) && ReferencePrice(s, o, p)
    ensures Acceptable(s, o, p) <==> Refusal(s, o).None?
  {
    RefusalIs(s, o, p);
    hide Wf, ReferencePrice, Covered, Funded, Refusal;
  }

  /** There is exactly one reference price. */
  lemma AcceptsIs(s: State, o: Place)
    requires Wf(s)
    ensures ReferencePrice(s, o, RefPrice(s, o)) && forall p :: ReferencePrice(s, o, p) ==> p == RefPrice(s, o)
    ensures Accepts(s, o) <==> Refusal(s, o).None?
  {
    forall p ensures ReferencePrice(s, o, p) <==> p == RefPrice(s, o) { ReferenceIs(s, o, p); }
    AcceptableIs(s, o, RefPrice(s, o));
    hide Wf, ReferencePrice, Acceptable, Refusal, RefPrice;
  }

  lemma DraftsEndAccepted(o: Place, m: Matching)
    requires m.makerTouched.Ok()
    ensures ReportsAccepted(o, OrderDrafts(o, m))
  {
    hide MakersAccepted, ReportAll;
    var d := OrderDrafts(o, m);
    assert d[|d| - 1] == TakerAccepted(o, m.remaining, m.filledNotional);
  }

  /** An order is accepted exactly if it passes all five tests; otherwise nothing changes
      and the answer is the two rejections, for the first test it fails. */
  lemma AcceptedExactlyIf(s: State, o: Place, ts: nat, c: Option<string>, p: int)
    requires Wf(s) && 0 < o.quantity && ReferencePrice(s, o, p)
    ensures var (t, drafts) := OnPlaceOrder(s, o, ts, c);
      && (ReportsAccepted(o, drafts) <==> Acceptable(s, o, p))
      && (!Acceptable(s, o, p) ==> t == s)
      && (!Known(s, o) ==> drafts == Refused(o, c, UserDoesNotExist))
      && (Known(s, o) && !LeverageAllowed(s, o) ==> drafts == Refused(o, c, LeverageOutOfRange(s.market.maxLeverage)))
      && (Known(s, o) && LeverageAllowed(s, o) ==>
            && (!MarginAllowed(s, o) ==> drafts == Refused(o, c, MarginBelowMinimum(s.market.minMargin)))
            && (MarginAllowed(s, o) && !Covered(o, p) ==> drafts == Refused(o, c, MarginInsufficient))
            && (MarginAllowed(s, o) && Covered(o, p) && !Funded(s, o) ==> drafts == Refused(o, c, InsufficientFreeBalance)))
  {
    WfPositive(s);
    RefusalIs(s, o, p);
    hide Wf, ReferencePrice, Covered, Funded, Refusal, Executed, OrderDrafts, EnsureAll, LeverageAllowed, MarginAllowed;
    if Refusal(s, o).None? {
      DraftsEndAccepted(o, Executed(s, o, ts));
    }
  }
}
