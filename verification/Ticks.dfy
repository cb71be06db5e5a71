/** What a price tick does to each account, with liquidation told from entry price, leverage
    and size alone. */
module Ticks {
  import opened Money
  import opened States
  import opened JsMaps
  import opened Accounts
  import opened EngineSpec
  import opened Invariants
  import MarginShares
  import Accounting
  import Risk
  import ZeroSum

  /** The liquidation price does not round to 0, and the loss per contract at the mark has
      used up 1 / leverage less the maintenance rate, to half a unit; in integers, as in
      Risk.LiquidatableWhenMarginIsGone. */
  predicate MarginGone(p: Position, mark: int, mmr: int)
  {
    var long := 0 < p.size;
    var loss := if long then p.entryPrice - mark else mark - p.entryPrice;
    var buffer := p.entryPrice * (UNIT * UNIT - mmr * p.leverage);
    var used := (2 * loss + 1) * (UNIT * p.leverage);
    && p.size != 0
    && UNIT * p.leverage <= 2 * Risk.LiquidationNumerator(p.entryPrice, p.leverage, long, mmr)
    && if long then 2 * buffer <= used else 2 * buffer < used
  }

  lemma UnderwaterIs(p: Position, mark: int, mmr: int)
    requires 0 < p.leverage && p.liqPrice == LiqPriceOf(p, mmr)
    ensures Underwater(p, mark) <==> MarginGone(p, mark, mmr)
  {
    Risk.LiquidatableWhenMarginIsGone(p.entryPrice, p.leverage, 0 < p.size, mmr, mark);
    hide Risk.LiquidationPrice, Risk.IsLiquidatable, Risk.LiquidationNumerator;
  }

  /** The gain of a position at the mark. */
  ghost predicate GainIs(gain: int, p: Position, mark: int)
  {
    Value(gain) == MarginShares.Gain(p.entryPrice, mark, p.size)
  }

  /** One account before and after a tick that closes it: its gain is realized, and its
      margin becomes free as far as it is locked. */
  ghost predicate ForcedClose(b: Balance, p: Position, c: Balance, q: Position, mark: int)
  {
    var pnl, moved := q.realizedPnl - p.realizedPnl, Min(b.locked, p.margin);
    && GainIs(pnl, p, mark)
    && c == Balance(b.total + pnl, b.free + pnl + moved, b.locked - moved)
    && q == p.(size := 0, entryPrice := 0, margin := 0, liqPrice := 0, unrealizedPnl := 0, markPrice := mark,
               realizedPnl := q.realizedPnl)
  }

  /** One that leaves it open, or had nothing to close. */
  ghost predicate OnlyMarked(b: Balance, p: Position, c: Balance, q: Position, mark: int)
  {
    c == b && q == p.(markPrice := mark, unrealizedPnl := q.unrealizedPnl) && GainIs(q.unrealizedPnl, p, mark)
  }

  lemma NothingToGain(entry: int, mark: int)
    ensures Pnl(entry, mark, 0) == 0
  {
    RoundDivExact(0, UNIT);
    assert (mark - entry) * 0 == 0 * UNIT;
  }

  lemma PnlIsGain(p: Position, mark: int)
    ensures GainIs(Pnl(p.entryPrice, mark, p.size), p, mark)
    ensures p.size == 0 ==> Pnl(p.entryPrice, mark, p.size) == 0
  {
    MarginShares.GainIs(p.entryPrice, mark, p.size);
    NothingToGain(p.entryPrice, mark);
    hide Pnl, MarginShares.Gain, Value;
  }

  lemma LiquidatedIs(a: Account, mark: int)
    requires 0 <= a.balance.locked && 0 <= a.position.margin
    ensures var r := Liquidate(Account(a.balance, MarkPosition(a.position, mark)), mark);
      ForcedClose(a.balance, a.position, r.balance, r.position, mark)
  {
    hide Pnl, GainIs;
    PnlIsGain(a.position, mark);
  }

  lemma MarkedIs(b: Balance, p: Position, mark: int)
    ensures OnlyMarked(b, p, b, MarkPosition(p, mark), mark)
  {
    hide Pnl, GainIs;
    PnlIsGain(p, mark);
  }

  lemma TickedAccount(s: State, mark: int, observerSeq: int, u: string)
    requires Wf(s) && s.lastObserverSeq < observerSeq && u in s.positions.at
    ensures var a := AccountOf(s, u);
      var marked := Account(a.balance, MarkPosition(a.position, mark));
      AccountOf(OnIndexPrice(s, mark, observerSeq).0, u)
        == if Underwater(a.position, mark) then Liquidate(marked, mark) else marked
  {
    var s0 := s.(lastObserverSeq := observerSeq);
    SameAccountsOk(s, s0);
    MarkToMarketOk(s0, mark);
    SweptAccount(MarkToMarket(s0, mark), mark, u);
    hide Wf, Liquidate, Pnl, Risk.IsLiquidatable;
  }

  lemma {:induction false} ReportsDoomed(s: State, t: State, users: seq<string>, mark: int, d: Draft)
    requires d.PositionLiquidated?
    ensures d in LiquidationDrafts(s, t, users, mark)
       <==> (d.userId in users
             && var p := s.PositionOf(d.userId); d == PositionLiquidated(d.userId, mark, Pnl(p.entryPrice, mark, p.size)))
  {
    hide Pnl;
    if users != [] {
      ReportsDoomed(s, t, users[1..], mark, d);
      assert users == [users[0]] + users[1..];
    }
  }

  lemma MarkedPosition(s: State, mark: int, observerSeq: int, u: string)
    requires u in s.positions.at
    ensures var p, q := s.PositionOf(u), MarkToMarket(s.(lastObserverSeq := observerSeq), mark).PositionOf(u);
      q.entryPrice == p.entryPrice && q.size == p.size
  {
  }

  /** A liquidation is reported for exactly the underwater positions, with what it realizes. */
  lemma ReportedExactlyIf(s: State, mark: int, observerSeq: int, u: string, pnl: int)
    requires Wf(s) && s.lastObserverSeq < observerSeq
    ensures PositionLiquidated(u, mark, pnl) in OnIndexPrice(s, mark, observerSeq).1
       <==> u in s.positions.at && Underwater(s.positions.at[u], mark)
            && pnl == Pnl(s.positions.at[u].entryPrice, mark, s.positions.at[u].size)
  {
    Accounting.TickClosesExactlyTheUnderwater(s, mark, observerSeq);
    var s1 := MarkToMarket(s.(lastObserverSeq := observerSeq), mark);
    var users := DoomedAmong(s1, s1.positions.keys, mark);
    if u in s.positions.at { MarkedPosition(s, mark, observerSeq, u); }
    ReportsDoomed(s1, Sweep(s1, mark), users, mark, PositionLiquidated(u, mark, pnl));
    hide *;
  }

  /** An accepted tick closes a position exactly if its margin is gone at the new mark. It
      realizes the gain, frees the margin and reports both; every other account keeps its
      balance and is only marked. */
  lemma TickLiquidatesExactlyIf(s: State, mark: int, observerSeq: int, u: string)
    requires Wf(s) && s.lastObserverSeq < observerSeq && u in s.positions.at
    ensures var (t, drafts) := OnIndexPrice(s, mark, observerSeq);
      var p := s.positions.at[u];
      && u in t.positions.at
      && var q := t.positions.at[u];
      && (MarginGone(p, mark, s.market.maintenanceMarginRate) ==>
            && ForcedClose(s.BalanceOf(u), p, t.BalanceOf(u), q, mark)
            && PositionLiquidated(u, mark, q.realizedPnl - p.realizedPnl) in drafts)
      && (!MarginGone(p, mark, s.market.maintenanceMarginRate) ==>
            && OnlyMarked(s.BalanceOf(u), p, t.BalanceOf(u), q, mark)
            && forall pnl :: PositionLiquidated(u, mark, pnl) !in drafts)
  {
    var a := AccountOf(s, u);
    assert Sound(a, s.market.maintenanceMarginRate);
    Accounting.TickClosesExactlyTheUnderwater(s, mark, observerSeq);
    hide Wf, OnIndexPrice, Underwater, Pnl, MarginGone, ForcedClose, OnlyMarked, LiqPriceOf;
    UnderwaterIs(a.position, mark, s.market.maintenanceMarginRate);
    TickedAccount(s, mark, observerSeq, u);
    LiquidatedIs(a, mark);
    MarkedIs(a.balance, a.position, mark);
    forall pnl
      ensures PositionLiquidated(u, mark, pnl) in OnIndexPrice(s, mark, observerSeq).1
         <==> Underwater(a.position, mark) && pnl == Pnl(a.position.entryPrice, mark, a.position.size)
    {
      ReportedExactlyIf(s, mark, observerSeq, u, pnl);
    }
  }
}
