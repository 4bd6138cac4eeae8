/**
 * The one service through which the account's own orders are created. A request
 * carries a key and a payload; the key decides whether the order exists already,
 * the payload whether it is the same order.
 */
module OrderCreation {
  import opened Common
  import opened BrokerOrders

  type Id = nat

  datatype Venue = Krx | Nxt | OtherVenue

  /** What a decision asks for. Stand covers every outcome that trades nothing. */
  datatype Action = Enter | PartialSell | FullSell | StopOut | Stand | OtherAction

  /** Idempotency keys. Keys typed by a person can be any of them. */
  datatype Key =
    | BuyKey(decision: Id)
    | SellKey(decision: Id, action: Action)
    | StopKey(trigger: Id)
    | FreeKey(text: string)

  /** What the order stands for. Requests with equal payloads have equal hashes and no others. */
  datatype Payload =
    | ByDecision(decision: Id, action: Action, symbol: Symbol, venue: Venue, price: real, quantity: int,
                 positionVersion: Option<nat>)
    | ByApproval(approval: Id, decision: Id, action: Action, symbol: Symbol, venue: Venue, quote: Option<real>,
                 quantity: int,
                 positionVersion: Option<nat>, snapshot: Option<Id>, key: Key)
    | ByTrigger(trigger: Id, symbol: Symbol, price: real, quantity: int, version: nat, stopPrice: real)
    | ByOthers(text: string)

  datatype Request = Request(
    key: Key,
    payload: Payload,
    symbol: Symbol,
    venue: Venue,
    side: Side,
    orderType: OrderType,
    limitPrice: Option<real>,
    quantity: int)

  datatype OrderRow = OrderRow(
    key: Key,
    payload: Payload,
    symbol: Symbol,
    side: Side,
    limitPrice: Option<real>,
    quantity: int,
    remaining: int,
    status: Status)

  datatype Code =
    | QuantityInvalid | VenueInvalid | LimitPriceRequired | MarketPriceNotAllowed | IdempotencyConflict
    | PositionFound | PositionVersionMatch | ManagedQuantityPositive | SellRatioValid
    | QuantityBelowOne | SellQuantityAvailable | BrokerReady | NoActiveOrder | MarketDataFresh
    | SellPriceAvailable | SessionTradable | EnvironmentMock | DecisionExpired
    | OrderSizeNotConfigured | TotalExposureLimit | SymbolExposureLimit | SnapshotMissing
    | SymbolNotWatched | EmergencyStop
    | SpreadLimit | EntryGuard(rule: string)
    | PriceDeviation | NoExecutableQuote | ActionNotImplemented | ActionDisabled | ShadowOnly | NothingToDo
    | OrderCreated | UserRejected | ApprovalExpired

  /** Orders that may still execute, or whose fate at the broker is unknown. */
  predicate Active(s: Status) {
    !(s.Filled? || s.Cancelled? || s.Replaced? || s.Rejected?)
  }

  function Invalid(r: Request): Option<Code> {
    if r.quantity <= 0 then Some(QuantityInvalid)
    else if r.venue == OtherVenue then Some(VenueInvalid)
    else if r.orderType == Limit && r.limitPrice.None? then Some(LimitPriceRequired)
    else if r.orderType == Market && r.limitPrice.Some? then Some(MarketPriceNotAllowed)
    else None
  }

  function Find(orders: seq<OrderRow>, key: Key): (found: Option<Id>)
    ensures found.Some? ==> found.value < |orders| && orders[found.value].key == key
    ensures found.None? ==> forall i :: 0 <= i < |orders| ==> orders[i].key != key
  {
    if orders == [] then None
    else if orders[|orders| - 1].key == key then Some(|orders| - 1)
    else Find(orders[..|orders| - 1], key)
  }

  function NewRow(r: Request): OrderRow {
    OrderRow(r.key, r.payload, r.symbol, r.side, r.limitPrice, r.quantity, r.quantity, Created)
  }

  datatype Creation = Placed(orders: seq<OrderRow>, id: Id) | Known(id: Id) | Refused(code: Code)

  function Create(orders: seq<OrderRow>, r: Request): Creation {
    if Invalid(r).Some? then Refused(Invalid(r).value)
    else match Find(orders, r.key)
      case None => Placed(orders + [NewRow(r)], |orders|)
      case Some(id) => if orders[id].payload != r.payload then Refused(IdempotencyConflict) else Known(id)
  }

  /** The table after a creation, successful or not. */
  function After(orders: seq<OrderRow>, r: Request): seq<OrderRow> {
    match Create(orders, r)
    case Placed(after, _) => after
    case _ => orders
  }

  ghost predicate DistinctKeys(orders: seq<OrderRow>) {
    forall i, j :: 0 <= i < j < |orders| ==> orders[i].key != orders[j].key
  }

  /** What may happen to the table from one moment to a later one: rows stay, with their key and payload. */
  ghost predicate Grows(before: seq<OrderRow>, after: seq<OrderRow>) {
    && |before| <= |after|
    && forall i :: 0 <= i < |before| ==> after[i].key == before[i].key && after[i].payload == before[i].payload
  }

  lemma CreateKeepsKeysDistinct(orders: seq<OrderRow>, r: Request)
    requires DistinctKeys(orders)
    ensures DistinctKeys(After(orders, r)) && Grows(orders, After(orders, r))
  {
  }

  lemma {:induction false} FindIsUnique(orders: seq<OrderRow>, id: Id)
    requires DistinctKeys(orders) && id < |orders|
    ensures Find(orders, orders[id].key) == Some(id)
  {
    hide Find;
  }

  /**
   * Once an order was placed under a key, every later request with that key is
   * answered from that one row: returned if the payload is the same, refused if not.
   */
  lemma PlacedOnceForAll(before: seq<OrderRow>, r: Request, later: seq<OrderRow>, again: Request)
    requires DistinctKeys(before) && Create(before, r).Placed?
    requires Grows(After(before, r), later) && DistinctKeys(later)
    requires again.key == r.key && Invalid(again).None?
    ensures Create(later, again) == if again.payload == r.payload then Known(|before|) else Refused(IdempotencyConflict)
  {
    assert later[|before|].key == r.key && later[|before|].payload == r.payload;
    FindIsUnique(later, |before|);
  }

  // ---------------------------------------------------------------- what active sell orders reserve

  function Reserved(orders: seq<OrderRow>, symbol: Symbol): int {
    if orders == [] then 0
    else
      var last := orders[|orders| - 1];
      Reserved(orders[..|orders| - 1], symbol)
      + if last.symbol == symbol && last.side == Sell && Active(last.status) then last.remaining else 0
  }

  predicate HasActive(orders: seq<OrderRow>, symbol: Symbol) {
    exists i :: 0 <= i < |orders| && orders[i].symbol == symbol && Active(orders[i].status)
  }

  lemma {:induction false} NothingReserved(orders: seq<OrderRow>, symbol: Symbol)
    requires !HasActive(orders, symbol)
    ensures Reserved(orders, symbol) == 0
  {
    if orders != [] {
      NothingReserved(orders[..|orders| - 1], symbol);
    }
  }
}
