/**
 * Position rows: what the broker holds for the account, and which part of it
 * the account's own orders are responsible for.
 */
module Positions {
  import opened Common
  import opened BrokerOrders
  import opened ManagedReplay

  datatype PositionState = Held | Closed

  datatype Origin = External | CrestaManaged | Mixed

  datatype Position = Position(
    quantity: int,
    available: int,
    average: real,
    managed: int,
    managedAverage: real,
    state: PositionState,
    origin: Origin,
    version: nat)

  datatype BrokerPosition = BrokerPosition(symbol: Symbol, quantity: int, available: int, average: real)

  type PositionTable = map<Symbol, Position>

  /** Per symbol the trades that the replay of it reads, oldest first. */
  type Histories = map<Symbol, seq<Trade>>

  function History(histories: Histories, symbol: Symbol): seq<Trade> {
    if symbol in histories then histories[symbol] else []
  }

  function HoldingOf(rows: seq<BrokerPosition>, symbol: Symbol): (row: Option<BrokerPosition>)
    ensures row.Some? ==> row.value in rows && row.value.symbol == symbol
    ensures row.None? ==> forall r :: r in rows ==> r.symbol != symbol
  {
    if rows == [] then None
    else if rows[|rows| - 1].symbol == symbol then Some(rows[|rows| - 1])
    else HoldingOf(rows[..|rows| - 1], symbol)
  }

  predicate DistinctSymbols(rows: seq<BrokerPosition>) {
    forall i, j :: 0 <= i < j < |rows| ==> rows[i].symbol != rows[j].symbol
  }

  predicate ValidHolding(row: BrokerPosition) {
    row.quantity > 0 && 0 <= row.available <= row.quantity && row.average > 0.0
  }

  // ---------------------------------------------------------------- one position

  /** Without own fills an earlier attribution is kept; either way no more than the broker holds. */
  function ManagedProjection(position: Option<Position>, brokerQuantity: int, replayed: Option<Managed>): (int, real) {
    if brokerQuantity <= 0 then
      (0, 0.0)
    else
      var (quantity, average) :=
        if replayed.Some? then (replayed.value.quantity as int, replayed.value.average)
        else if position.Some? then (position.value.managed, position.value.managedAverage)
        else (0, 0.0);
      var managed := Min(Max(0, quantity), brokerQuantity);
      (managed, if managed > 0 then average else 0.0)
  }

  function PositionOrigin(quantity: int, managed: int): Origin {
    if managed <= 0 then External else if managed >= quantity then CrestaManaged else Mixed
  }

  function HoldingState(quantity: int): PositionState {
    if quantity != 0 then Held else Closed
  }

  function Imported(row: BrokerPosition, replayed: Option<Managed>): Position {
    var (managed, managedAverage) := ManagedProjection(None, row.quantity, replayed);
    Position(row.quantity, row.available, row.average, managed, managedAverage, HoldingState(row.quantity),
             PositionOrigin(row.quantity, managed), 1)
  }

  function Updated(p: Position, row: BrokerPosition, replayed: Option<Managed>): Position {
    var (managed, managedAverage) := ManagedProjection(Some(p), row.quantity, replayed);
    var after := p.(quantity := row.quantity, available := row.available, average := row.average,
                    managed := managed, managedAverage := managedAverage, state := HoldingState(row.quantity),
                    origin := if row.quantity != 0 then PositionOrigin(row.quantity, managed) else p.origin);
    if after != p then after.(version := p.version + 1) else p
  }

  function ClosedOut(p: Position): Position {
    if p.state == Held then
      p.(quantity := 0, available := 0, average := 0.0, managed := 0, managedAverage := 0.0, state := Closed,
         version := p.version + 1)
    else
      p
  }

  function ProjectedPosition(position: Option<Position>, row: Option<BrokerPosition>,
                             history: seq<Trade>): Option<Position> {
    match (position, row)
    case (None, None) => None
    case (Some(p), None) => Some(ClosedOut(p))
    case (None, Some(r)) => Some(Imported(r, Replayed(history)))
    case (Some(p), Some(r)) => Some(Updated(p, r, Replayed(history)))
  }

  // ---------------------------------------------------------------- what every projection keeps

  /** The managed part fits in the position and an open position's origin says how much of it is managed. */
  predicate Attributed(p: Position) {
    && 0 <= p.managed <= p.quantity
    && 0 <= p.available <= p.quantity
    && (p.state == Held ==>
          && (p.origin == External <==> p.managed == 0)
          && (p.origin == CrestaManaged <==> p.managed == p.quantity && p.quantity > 0)
          && (p.origin == Mixed <==> 0 < p.managed < p.quantity))
  }

  lemma ProjectionKeepsAttribution(position: Option<Position>, row: Option<BrokerPosition>, history: seq<Trade>)
    requires position.Some? ==> Attributed(position.value)
    requires row.Some? ==> ValidHolding(row.value)
    ensures var after := ProjectedPosition(position, row, history);
            after.Some? ==> Attributed(after.value) && (after.value.state == Held <==> row.Some?)
  {
  }

  /**
   * With own fills, the managed part is what they still hold (buys minus sells,
   * reflected where the account sold more than it had bought), capped by the
   * broker's holding; without them it never grows.
   */
  lemma ManagedPartIsExplained(position: Option<Position>, row: BrokerPosition, history: seq<Trade>)
    requires ValidHolding(row)
    requires position.Some? ==> Attributed(position.value)
    ensures var after := ProjectedPosition(position, Some(row), history).value;
            && (history != [] ==> after.managed == Min(Net(history) - LowestNet(history), row.quantity))
            && (history == [] ==> after.managed <= if position.Some? then position.value.managed else 0)
  {
    ReplayReflectsNet(history);
  }

  lemma ProjectPositionTwice(position: Option<Position>, row: Option<BrokerPosition>, history: seq<Trade>)
    ensures var once := ProjectedPosition(position, row, history);
            ProjectedPosition(once, row, history) == once
  {
  }

  /** A position's version rises by one when the projection changes the row and stays otherwise. */
  lemma VersionCountsChanges(p: Position, row: Option<BrokerPosition>, history: seq<Trade>)
    ensures var after := ProjectedPosition(Some(p), row, history).value;
            after.version == p.version + if after == p then 0 else 1
  {
  }

  function ProjectedPositions(positions: PositionTable, rows: seq<BrokerPosition>,
                              histories: Histories): (after: PositionTable)
    ensures forall s ::
              Get(after, s) == ProjectedPosition(Get(positions, s), HoldingOf(rows, s), History(histories, s))
  {
    map s | s in positions.Keys + (set r | r in rows :: r.symbol) ::
      ProjectedPosition(Get(positions, s), HoldingOf(rows, s), History(histories, s)).value
  }

  /** Over the same histories a second projection changes nothing. The first one may change the histories, though. */
  lemma PositionsStableOverSameHistories(positions: PositionTable, rows: seq<BrokerPosition>, histories: Histories)
    ensures var once := ProjectedPositions(positions, rows, histories);
            ProjectedPositions(once, rows, histories) == once
  {
    var once := ProjectedPositions(positions, rows, histories);
    var twice := ProjectedPositions(once, rows, histories);
    forall s
      ensures Get(twice, s) == Get(once, s)
    {
      ProjectPositionTwice(Get(positions, s), HoldingOf(rows, s), History(histories, s));
    }
    SameGets(twice, once);
  }
}
