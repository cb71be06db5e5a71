/** The entities of the engine, as values. */
module States {
  import opened JsMaps

  datatype Option<+T> = None | Some(value: T)

  datatype Side = Bid | Ask {
    function Opposite(): Side { if Bid? then Ask else Bid }
  }

  datatype OrderType = LIMIT | MARKET

  datatype MarketConfig = MarketConfig(
    symbol: string, maxLeverage: int, minMargin: int, maintenanceMarginRate: int)

  datatype Balance = Balance(total: int, free: int, locked: int)

  const NO_BALANCE := Balance(0, 0, 0)

  /** The owner of a position is the key it is stored under. */
  datatype Position = Position(
    size: int, entryPrice: int, margin: int, leverage: int, liqPrice: int,
    realizedPnl: int, unrealizedPnl: int, markPrice: int)

  datatype Order = Order(
    orderId: string, userId: string, side: Side, price: int, quantity: int,
    remaining: int, leverage: int, margin: int, seqNo: nat, ts: nat)

  /** Position of an entry in the input stream, "<ms>-<seq>". */
  datatype StreamId = StreamId(ms: nat, n: nat)

  const ZERO_ID := StreamId(0, 0)

  /** The whole engine state. A book side is the list of its resting orders in matching
      order: best price first, oldest first within a price. */
  datatype State = State(
    market: MarketConfig,
    markPrice: int,
    lastTradePrice: int,
    balances: JsMap<Balance>,
    positions: JsMap<Position>,
    bids: seq<Order>,
    asks: seq<Order>,
    seqNo: nat,
    lastInputId: StreamId,
    appliedCount: nat,
    appliedCommandIds: seq<string>,
    lastObserverSeq: int)
  {
    function Orders(side: Side): seq<Order> { if side.Bid? then bids else asks }

    function WithOrders(side: Side, s: seq<Order>): State {
      if side.Bid? then this.(bids := s) else this.(asks := s)
    }

    function BalanceOf(u: string): Balance { balances.GetOr(u, NO_BALANCE) }

    function PositionOf(u: string): Position { positions.GetOr(u, FlatPosition(markPrice)) }
  }

  /** The record `ensurePosition` creates. */
  function FlatPosition(markPrice: int): Position
  {
    Position(0, 0, 0, UNIT_LEVERAGE, 0, 0, 0, markPrice)
  }

  const UNIT_LEVERAGE := 1_0000_0000

  function CreateState(market: MarketConfig): State
  {
    State(market, 0, 0, Empty(), Empty(), [], [], 0, ZERO_ID, 0, [], -1)
  }

  // ----- Input -----

  datatype Place = Place(
    userId: string, orderId: string, side: Side, orderType: OrderType,
    quantity: int, price: int, leverage: int, margin: int)

  datatype Payload =
    | UserCreated(userId: string, openingBalance: int)
    | BalanceDeposited(userId: string, amount: int)
    | PlaceOrder(order: Place)
    | CancelOrder(userId: string, orderId: string, side: Side, price: int)
    | IndexPriceUpdated(price: int, observerSeq: int)

  datatype Event = Event(
    eventId: string, ts: nat, correlationId: Option<string>,
    commandId: Option<string>, payload: Payload)
  {
    /** What the input schema admits. */
    predicate Admitted() {
      match payload
      case UserCreated(_, openingBalance) => 0 <= openingBalance
      case BalanceDeposited(_, amount) => 0 < amount
      case PlaceOrder(o) => 0 < o.quantity && 0 <= o.price && 0 < o.leverage && 0 < o.margin
      case CancelOrder(_, _, _, price) => 0 <= price
      case IndexPriceUpdated(price, observerSeq) => 0 < price && 0 <= observerSeq
    }
  }

  // ----- Output -----

  datatype Reason =
    | UserDoesNotExist
    | LeverageOutOfRange(maxLeverage: int)
    | MarginBelowMinimum(minMargin: int)
    | MarginInsufficient
    | InsufficientFreeBalance
    | OrderNotFound

  datatype Status = OPEN | PARTIAL | FILLED | CANCELLED

  datatype Draft =
    | BalanceUpdated(userId: string, balance: Balance)
    | PositionUpdated(userId: string, position: Position)
    | BookDelta(side: Side, price: int, newQuantity: int)
    | TradeExecuted(tradeSeq: nat, makerOrderId: string, takerOrderId: string,
                    makerUserId: string, takerUserId: string,
                    price: int, quantity: int, takerSide: Side, ts: nat)
    | OrderAccepted(orderId: string, userId: string, status: Status,
                    filledQuantity: int, remainingQuantity: int, avgFillPrice: int)
    | OrderRejected(orderId: string, userId: string, reason: Reason)
    | CommandRejected(commandId: string, reason: Reason)
    | OrderCancelled(orderId: string, userId: string, releasedMargin: int)
    | PositionLiquidated(userId: string, markPrice: int, realizedPnl: int)

  /** A draft with its envelope: `evt_<eventSeq>`. */
  datatype Output = Output(
    eventSeq: nat, ts: nat, correlationId: Option<string>, causationId: string,
    commandId: Option<string>, draft: Draft)
}
