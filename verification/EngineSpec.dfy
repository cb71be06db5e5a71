/** The engine as a function: one input event takes a state to a state and a list of
    drafts. Matching is described one fill at a time on the flat book. */
module EngineSpec {
  import opened Money
  import opened States
  import opened JsMaps
  import opened Accounts
  import Book
  import Risk

  const MAX_APPLIED_COMMANDS: nat := 50000

  function AccountOf(s: State, u: string): Account
  {
    Account(s.BalanceOf(u), s.PositionOf(u))
  }

  function PutBalance(s: State, u: string, b: Balance): State
  {
    s.(balances := s.balances.Set(u, b))
  }

  function PutAccount(s: State, u: string, a: Account): State
  {
    s.(balances := s.balances.Set(u, a.balance), positions := s.positions.Set(u, a.position))
  }

  function EnsureBalance(s: State, u: string): State
  {
    if u in s.balances.at then s else PutBalance(s, u, NO_BALANCE)
  }

  function EnsurePosition(s: State, u: string): State
  {
    if u in s.positions.at then s else s.(positions := s.positions.Set(u, FlatPosition(s.markPrice)))
  }

  /** `applyFill` for one user. */
  function FillUser(s: State, u: string, f: Fill): State
    requires 0 < f.qty
  {
    PutAccount(s, u, ApplyFill(AccountOf(s, u), f, s.market.maintenanceMarginRate))
  }

  // ----- Drafts -----

  function BalanceDraft(s: State, u: string): Draft { BalanceUpdated(u, s.BalanceOf(u)) }

  function PositionDraft(s: State, u: string): Draft { PositionUpdated(u, s.PositionOf(u)) }

  function DeltaDraft(s: State, side: Side, price: int): Draft
  {
    BookDelta(side, price, Book.DepthAt(s.Orders(side), price))
  }

  /** Balance and position of every affected user, creating a missing position. */
  function EnsureAll(s: State, users: seq<string>): State
    decreases |users|
  {
    if users == [] then s else EnsureAll(EnsurePosition(s, users[0]), users[1..])
  }

  function ReportAll(s: State, users: seq<string>): seq<Draft>
    decreases |users|
  {
    if users == [] then []
    else
      var s1 := EnsurePosition(s, users[0]);
      [BalanceDraft(s1, users[0]), PositionDraft(s1, users[0])] + ReportAll(s1, users[1..])
  }

  // ----- Users and deposits -----

  function OnUserCreated(s: State, u: string, openingBalance: int): (State, seq<Draft>)
  {
    var s1 := EnsureBalance(s, u);
    var s2 := if 0 < openingBalance then PutBalance(s1, u, Credit(s1.BalanceOf(u), openingBalance)) else s1;
    (s2, [BalanceDraft(s2, u)])
  }

  function OnBalanceDeposited(s: State, u: string, amount: int): (State, seq<Draft>)
  {
    var s1 := EnsureBalance(s, u);
    var s2 := PutBalance(s1, u, Credit(s1.BalanceOf(u), amount));
    (s2, [BalanceDraft(s2, u)])
  }

  // ----- Placing an order -----

  /** A signed quantity traded by a user at a price, by a fill or forced by a liquidation;
      a history variable of the model. */
  datatype Leg = Leg(userId: string, signed: int, price: int, forced: bool)

  datatype Touched = Touched(restingQty: int, filled: int, userId: string)

  /** The state and the local variables of the matching loop. */
  datatype Matching = Matching(
    s: State, remaining: int, filledNotional: int, makerTouched: JsMap<Touched>,
    affected: seq<string>, outs: seq<Draft>, legs: seq<Leg>)

  function Makers(o: Place, m: Matching): seq<Order> { m.s.Orders(o.side.Opposite()) }

  predicate Crosses(o: Place, price: int)
  {
    o.orderType.MARKET? || (if o.side.Bid? then price <= o.price else o.price <= price)
  }

  predicate CanFill(o: Place, m: Matching)
  {
    0 < m.remaining && Makers(o, m) != [] && Crosses(o, Makers(o, m)[0].price)
  }

  predicate Positive(s: seq<Order>) { forall i :: 0 <= i < |s| ==> 0 < s[i].remaining }

  function FillQty(o: Place, m: Matching): int
    requires CanFill(o, m)
  {
    Min(m.remaining, Makers(o, m)[0].remaining)
  }

  /** The maker's margin share for a fill. */
  function MakerFillMargin(maker: Order, qty: int): int
  {
    if 0 < maker.remaining then RoundDiv(qty * maker.margin, maker.remaining) else 0
  }

  /** The taker's margin share: marginPerUnit times the quantity, rounded. */
  function TakerShare(o: Place, qty: int): int
    requires 0 < o.quantity
  {
    RoundDiv(qty * o.margin, o.quantity)
  }

  function MakerAfter(maker: Order, qty: int): Order
  {
    maker.(remaining := maker.remaining - qty, margin := maker.margin - MakerFillMargin(maker, qty))
  }

  function MakersAfter(s: seq<Order>, qty: int): seq<Order>
    requires s != []
  {
    if MakerAfter(s[0], qty).remaining <= 0 then s[1..] else [MakerAfter(s[0], qty)] + s[1..]
  }

  function MakerFill(maker: Order, qty: int): Fill
  {
    Fill(maker.side, maker.price, qty, MakerFillMargin(maker, qty), maker.leverage)
  }

  function TakerFill(o: Place, price: int, qty: int): Fill
    requires 0 < o.quantity
  {
    Fill(o.side, price, qty, TakerShare(o, qty), o.leverage)
  }

  /** State after one fill: the book first, then the maker, then the taker. */
  function FilledState(o: Place, s: State, qty: int): State
    requires 0 < o.quantity && 0 < qty && s.Orders(o.side.Opposite()) != []
  {
    var side := o.side.Opposite();
    var maker := s.Orders(side)[0];
    var s1 := s.WithOrders(side, MakersAfter(s.Orders(side), qty));
    var s2 := FillUser(s1, maker.userId, MakerFill(maker, qty));
    var s3 := FillUser(s2, o.userId, TakerFill(o, maker.price, qty));
    s3.(lastTradePrice := maker.price, seqNo := s3.seqNo + 1)
  }

  function Touch(t: JsMap<Touched>, maker: Order, qty: int): (r: JsMap<Touched>)
    ensures t.Ok() ==> r.Ok()
  {
    var mt := t.GetOr(maker.orderId, Touched(maker.quantity, 0, maker.userId));
    t.Set(maker.orderId, mt.(filled := mt.filled + qty))
  }

  function TradeDraft(o: Place, ts: nat, maker: Order, qty: int, tradeSeq: nat): Draft
  {
    TradeExecuted(tradeSeq, maker.orderId, o.orderId, maker.userId, o.userId, maker.price, qty, o.side, ts)
  }

  /** Has the loop left the price level: order filled, side empty, or next price? */
  predicate LevelDone(remaining: int, s: seq<Order>, price: int)
  {
    remaining <= 0 || s == [] || s[0].price != price
  }

  function MakerLeg(o: Place, m: Matching): Leg
    requires CanFill(o, m)
  {
    var maker, qty := Makers(o, m)[0], FillQty(o, m);
    Leg(maker.userId, MakerFill(maker, qty).Signed(), maker.price, false)
  }

  function TakerLeg(o: Place, m: Matching): Leg
    requires CanFill(o, m) && 0 < o.quantity
  {
    var maker, qty := Makers(o, m)[0], FillQty(o, m);
    Leg(o.userId, TakerFill(o, maker.price, qty).Signed(), maker.price, false)
  }

  /** The trade, and the depth update of its level when the loop leaves it; `s` is the
      state after the fill. */
  function StepDrafts(o: Place, ts: nat, maker: Order, qty: int, left: int, s: State): seq<Draft>
  {
    var side := o.side.Opposite();
    [TradeDraft(o, ts, maker, qty, s.seqNo)]
    + (if LevelDone(left, s.Orders(side), maker.price) then [DeltaDraft(s, side, maker.price)] else [])
  }

  /** One iteration of the inner loop, with the depth update that closes its level. */
  function FillStep(o: Place, ts: nat, m: Matching): Matching
    requires 0 < o.quantity && CanFill(o, m) && Positive(Makers(o, m))
  {
    var maker, qty := Makers(o, m)[0], FillQty(o, m);
    var s := FilledState(o, m.s, qty);
    var left := m.remaining - qty;
    Matching(
      s,
      left,
      m.filledNotional + RoundDiv(maker.price * qty, UNIT),
      Touch(m.makerTouched, maker, qty),
      AddOnce(m.affected, maker.userId),
      m.outs + StepDrafts(o, ts, maker, qty, left, s),
      m.legs + [MakerLeg(o, m), TakerLeg(o, m)])
  }

  /** The whole matching loop. */
  function MatchAll(o: Place, ts: nat, m: Matching): (r: Matching)
    requires 0 < o.quantity && Positive(Makers(o, m))
    ensures m.makerTouched.Ok() ==> r.makerTouched.Ok()
    decreases |Makers(o, m)|, Max(0, m.remaining)
  {
    if CanFill(o, m) then MatchAll(o, ts, FillStep(o, ts, m)) else m
  }

  function RestingOrder(o: Place, ts: nat, m: Matching): Order
    requires 0 < o.quantity
  {
    Order(o.orderId, o.userId, o.side, o.price, m.remaining, m.remaining, o.leverage,
          TakerShare(o, m.remaining), m.s.seqNo + 1, ts)
  }

  function StatusOf(o: Place, remaining: int): Status
  {
    if remaining <= 0 then FILLED
    else if o.quantity - remaining > 0 then PARTIAL
    else if o.orderType.LIMIT? then OPEN else CANCELLED
  }

  /** Rest what is left of a limit order, release what is left of a market order. */
  function HandleRemainder(o: Place, ts: nat, m: Matching): (r: Matching)
    requires 0 < o.quantity
    ensures r.makerTouched == m.makerTouched
  {
    if m.remaining <= 0 then m
    else if o.orderType.LIMIT? then
      var s := m.s.(seqNo := m.s.seqNo + 1);
      var s1 := s.WithOrders(o.side, Book.Insert(s.Orders(o.side), RestingOrder(o, ts, m)));
      m.(s := s1, outs := m.outs + [DeltaDraft(s1, o.side, o.price)])
    else
      m.(s := PutBalance(m.s, o.userId, Release(m.s.BalanceOf(o.userId), TakerShare(o, m.remaining))))
  }

  function MakerAccepted(id: string, t: Touched): Draft
  {
    var left := t.restingQty - t.filled;
    OrderAccepted(id, t.userId, if 0 < left then PARTIAL else FILLED, t.filled, Max(0, left), 0)
  }

  function MakersAccepted(keys: seq<string>, t: JsMap<Touched>): seq<Draft>
    requires forall k :: k in keys ==> k in t.at
  {
    if keys == [] then [] else [MakerAccepted(keys[0], t.at[keys[0]])] + MakersAccepted(keys[1..], t)
  }

  function TakerAccepted(o: Place, remaining: int, filledNotional: int): Draft
  {
    var filled := o.quantity - remaining;
    OrderAccepted(o.orderId, o.userId, StatusOf(o, remaining), filled, remaining,
                  if 0 < filled then RoundDiv(filledNotional * UNIT, filled) else 0)
  }

  function RefPrice(s: State, o: Place): int
  {
    if o.orderType.LIMIT? then o.price
    else if s.Orders(o.side.Opposite()) != [] then s.Orders(o.side.Opposite())[0].price
    else s.markPrice
  }

  /** The checks in the order the source makes them; the lock is the last one. */
  function Refusal(s: State, o: Place): Option<Reason>
  {
    if o.userId !in s.balances.at then Some(UserDoesNotExist)
    else if o.leverage <= 0 || s.market.maxLeverage < o.leverage then Some(LeverageOutOfRange(s.market.maxLeverage))
    else if o.margin < s.market.minMargin then Some(MarginBelowMinimum(s.market.minMargin))
    else if 0 < RefPrice(s, o)
      && Risk.Short(o.margin + TOLERANCE, Risk.RequiredMargin(RefPrice(s, o), o.quantity, o.leverage))
    then Some(MarginInsufficient)
    else if !CanLock(s.BalanceOf(o.userId), o.margin) then Some(InsufficientFreeBalance)
    else None
  }

  function Rejection(commandId: Option<string>, orderId: string, u: string, reason: Reason): seq<Draft>
  {
    [OrderRejected(orderId, u, reason),
     CommandRejected(if commandId.Some? then commandId.value else orderId, reason)]
  }

  function StartMatching(s: State, o: Place): Matching
  {
    Matching(PutBalance(s, o.userId, Lock(s.BalanceOf(o.userId), o.margin)),
             o.quantity, 0, Empty(), [o.userId], [], [])
  }

  /** Lock, match, handle the remainder. */
  function Executed(s: State, o: Place, ts: nat): (r: Matching)
    requires 0 < o.quantity && Positive(s.Orders(o.side.Opposite()))
    ensures r.makerTouched.Ok()
  {
    HandleRemainder(o, ts, MatchAll(o, ts, StartMatching(s, o)))
  }

  function OrderDrafts(o: Place, m: Matching): seq<Draft>
    requires m.makerTouched.Ok()
  {
    m.outs
    + MakersAccepted(m.makerTouched.keys, m.makerTouched)
    + ReportAll(m.s, m.affected)
    + [TakerAccepted(o, m.remaining, m.filledNotional)]
  }

  function OnPlaceOrder(s: State, o: Place, ts: nat, commandId: Option<string>): (State, seq<Draft>)
    requires 0 < o.quantity && Positive(s.Orders(o.side.Opposite()))
  {
    match Refusal(s, o)
    case Some(reason) => (s, Rejection(commandId, o.orderId, o.userId, reason))
    case None =>
      var m := Executed(s, o, ts);
      (EnsureAll(m.s, m.affected), OrderDrafts(o, m))
  }

  // ----- Cancelling -----

  function OnCancelOrder(s: State, u: string, orderId: string, side: Side, price: int, commandId: Option<string>)
    : (State, seq<Draft>)
  {
    var orders := s.Orders(side);
    var i := Book.Find(orders, price, orderId);
    if i == |orders| || orders[i].userId != u then
      (s, Rejection(commandId, orderId, u, OrderNotFound))
    else
      var s1 := s.WithOrders(side, Book.Remove(orders, i));
      var b := s1.BalanceOf(u);
      var s2 := PutBalance(s1, u, Release(b, orders[i].margin));
      (s2, [DeltaDraft(s2, side, price), BalanceDraft(s2, u),
            OrderCancelled(orderId, u, Moved(b, orders[i].margin))])
  }

  // ----- Price ticks -----

  function MarkToMarket(s: State, mark: int): State
  {
    s.(markPrice := mark,
       positions := s.positions.(at := map u | u in s.positions.at :: MarkPosition(s.positions.at[u], mark)))
  }

  predicate Doomed(s: State, u: string, mark: int)
  {
    u in s.positions.at && Underwater(s.positions.at[u], mark)
  }

  /** Every underwater position is closed at the mark; nothing else changes. The order in
      which positions are visited plays no part. */
  function Sweep(s: State, mark: int): State
  {
    s.(balances := s.balances.(at := map u | u in s.balances.at ::
         if Doomed(s, u, mark) then Liquidate(AccountOf(s, u), mark).balance else s.balances.at[u]),
       positions := s.positions.(at := map u | u in s.positions.at ::
         if Doomed(s, u, mark) then Liquidate(AccountOf(s, u), mark).position else s.positions.at[u]))
  }

  /** The users swept, in the order positions are visited. */
  function DoomedAmong(s: State, keys: seq<string>, mark: int): seq<string>
  {
    if keys == [] then []
    else (if Doomed(s, keys[0], mark) then [keys[0]] else []) + DoomedAmong(s, keys[1..], mark)
  }

  /** Drafts for the swept users: `s` is the state the sweep started from, `t` its result. */
  function LiquidationDrafts(s: State, t: State, users: seq<string>, mark: int): seq<Draft>
  {
    if users == [] then []
    else
      var p := s.PositionOf(users[0]);
      [PositionLiquidated(users[0], mark, Pnl(p.entryPrice, mark, p.size)),
       BalanceDraft(t, users[0]), PositionDraft(t, users[0])]
      + LiquidationDrafts(s, t, users[1..], mark)
  }

  function OnIndexPrice(s: State, price: int, observerSeq: int): (State, seq<Draft>)
  {
    if observerSeq <= s.lastObserverSeq then (s, [])
    else
      var s1 := MarkToMarket(s.(lastObserverSeq := observerSeq), price);
      var s2 := Sweep(s1, price);
      (s2, LiquidationDrafts(s1, s2, DoomedAmong(s1, s1.positions.keys, price), price))
  }

  // ----- One event -----

  function Dispatch(s: State, e: Event): (State, seq<Draft>)
    requires e.Admitted() && Positive(s.bids) && Positive(s.asks)
  {
    match e.payload
    case UserCreated(u, openingBalance) => OnUserCreated(s, u, openingBalance)
    case BalanceDeposited(u, amount) => OnBalanceDeposited(s, u, amount)
    case PlaceOrder(o) => OnPlaceOrder(s, o, e.ts, e.commandId)
    case CancelOrder(u, orderId, side, price) => OnCancelOrder(s, u, orderId, side, price, e.commandId)
    case IndexPriceUpdated(price, observerSeq) => OnIndexPrice(s, price, observerSeq)
  }

  predicate AlreadyApplied(s: State, e: Event)
  {
    e.commandId.Some? && e.commandId.value in s.appliedCommandIds
  }

  /** The newest MAX_APPLIED_COMMANDS entries. */
  function Newest(ids: seq<string>): seq<string>
  {
    if MAX_APPLIED_COMMANDS < |ids| then ids[|ids| - MAX_APPLIED_COMMANDS..] else ids
  }

  function RecordCommand(s: State, e: Event): State
  {
    if e.commandId.Some? then s.(appliedCommandIds := Newest(s.appliedCommandIds + [e.commandId.value])) else s
  }

  function Drafts(s: State, e: Event): seq<Draft>
    requires e.Admitted() && Positive(s.bids) && Positive(s.asks)
  {
    if AlreadyApplied(s, e) then [] else Dispatch(s, e).1
  }

  /** The state after an event read at stream position `id`. */
  function Step(s: State, e: Event, id: StreamId): State
    requires e.Admitted() && Positive(s.bids) && Positive(s.asks)
  {
    if AlreadyApplied(s, e) then s.(lastInputId := id)
    else
      var (t, drafts) := Dispatch(s, e);
      var t1 := RecordCommand(t, e);
      t1.(appliedCount := t1.appliedCount + 1, lastInputId := id, seqNo := t1.seqNo + |drafts|)
  }

  function Stamp(e: Event, eventSeq: nat, d: Draft): Output
  {
    Output(eventSeq, e.ts, e.correlationId, e.eventId, e.commandId, d)
  }

  /** The published events: the drafts, numbered on from the state's counter. */
  function StampAll(e: Event, first: nat, drafts: seq<Draft>): seq<Output>
  {
    seq(|drafts|, i requires 0 <= i < |drafts| => Stamp(e, first + i, drafts[i]))
  }

  function Outputs(s: State, e: Event): seq<Output>
    requires e.Admitted() && Positive(s.bids) && Positive(s.asks)
  {
    if AlreadyApplied(s, e) then []
    else var (t, drafts) := Dispatch(s, e); StampAll(e, t.seqNo + 1, drafts)
  }
}
