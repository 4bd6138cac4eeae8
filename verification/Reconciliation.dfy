/**
 * Comparing the account's own ledger with a broker snapshot, and what such a
 * comparison can still report right after that snapshot was projected.
 */
module Reconciliation {
  import opened Common
  import opened BrokerOrders
  import opened FillLedger
  import opened Positions

  /** A broker snapshot with the Korean date, as a day number, on which it was taken. */
  datatype Snapshot = Snapshot(date: int, open: seq<OpenRow>, fills: seq<BrokerFill>, positions: seq<BrokerPosition>)

  /** Orders the broker has numbered, orders it has not, and positions. */
  datatype Ledger = Ledger(orders: Orders, unsent: seq<Order>, positions: PositionTable)

  /** What the broker adapter guarantees of a snapshot it returns. Open-order quantities are checked later. */
  predicate WellFormed(snapshot: Snapshot) {
    && DistinctIds(snapshot.open)
    && DistinctSymbols(snapshot.positions)
    && (forall f :: f in snapshot.fills ==> f.quantity > 0)
    && (forall p :: p in snapshot.positions ==> ValidHolding(p))
  }

  // ---------------------------------------------------------------- the comparison

  datatype Code =
    | BrokerOrderMissingInternal | OrderStateMismatch | InternalOrderMissingBroker | FillQuantityMismatch
    | UnknownExternalPosition | PositionQuantityMismatch | AveragePriceMismatch

  /** One side of a mismatch as it is written down for the operator. */
  datatype Shown =
    | Nothing
    | OrderShown(id: Option<BrokerId>, symbol: Symbol, side: Side, requested: int, filled: int, remaining: int)
    | FillsShown(id: Option<BrokerId>, filled: int)
    | BrokerPositionShown(symbol: Symbol, quantity: int, available: int, average: real)
    | PositionShown(symbol: Symbol, quantity: int, average: real)

  datatype Mismatch = Mismatch(code: Code, symbol: Symbol, broker: Shown, own: Shown)

  function ShowRow(row: OpenRow): Shown {
    OrderShown(Some(row.id), row.symbol, row.side, row.requested, row.filled, row.remaining)
  }

  function ShowOrder(id: Option<BrokerId>, order: Order): Shown {
    OrderShown(id, order.symbol, order.side, order.requested, order.filled, order.remaining)
  }

  function ShowHolding(row: BrokerPosition): Shown {
    BrokerPositionShown(row.symbol, row.quantity, row.available, row.average)
  }

  function ShowPosition(symbol: Symbol, p: Position): Shown {
    PositionShown(symbol, p.quantity, p.average)
  }

  function OrderFinding(row: OpenRow, order: Option<Order>): Option<Mismatch> {
    if order.None? || !BrokerVisible(order.value.status) then
      Some(Mismatch(BrokerOrderMissingInternal, row.symbol, ShowRow(row), Nothing))
    else if ShowRow(row) != ShowOrder(Some(row.id), order.value) then
      Some(Mismatch(OrderStateMismatch, row.symbol, ShowRow(row), ShowOrder(Some(row.id), order.value)))
    else
      None
  }

  function AbsenceFinding(id: Option<BrokerId>, order: Order): Option<Mismatch> {
    if BrokerVisible(order.status) then
      Some(Mismatch(InternalOrderMissingBroker, order.symbol, Nothing, ShowOrder(id, order)))
    else
      None
  }

  function FillFinding(id: BrokerId, total: int, order: Option<Order>): Option<Mismatch> {
    if order.Some? && total != order.value.filled then
      Some(Mismatch(FillQuantityMismatch, order.value.symbol, FillsShown(Some(id), total),
                    FillsShown(Some(id), order.value.filled)))
    else
      None
  }

  function HoldingFinding(row: BrokerPosition, position: Option<Position>): Option<Mismatch> {
    if position.None? || position.value.state != Held then
      Some(Mismatch(UnknownExternalPosition, row.symbol, ShowHolding(row), Nothing))
    else if row.quantity != position.value.quantity then
      Some(Mismatch(PositionQuantityMismatch, row.symbol, ShowHolding(row), ShowPosition(row.symbol, position.value)))
    else if row.average != position.value.average then
      Some(Mismatch(AveragePriceMismatch, row.symbol, ShowHolding(row), ShowPosition(row.symbol, position.value)))
    else
      None
  }

  function GoneFinding(symbol: Symbol, position: Position): Option<Mismatch> {
    if position.state == Held then
      Some(Mismatch(PositionQuantityMismatch, symbol, Nothing, ShowPosition(symbol, position)))
    else
      None
  }

  /** Exactly the mismatches that comparing the ledger with the snapshot reports. */
  ghost predicate Reports(ledger: Ledger, snapshot: Snapshot, m: Mismatch) {
    || (exists row :: row in snapshot.open && OrderFinding(row, Get(ledger.orders, row.id)) == Some(m))
    || (exists id :: id in ledger.orders && RowOf(snapshot.open, id).None?
                     && AbsenceFinding(Some(id), ledger.orders[id]) == Some(m))
    || (exists o :: o in ledger.unsent && AbsenceFinding(None, o) == Some(m))
    || (exists id :: TotalOf(snapshot.fills, id).Some?
                     && FillFinding(id, TotalOf(snapshot.fills, id).value, Get(ledger.orders, id)) == Some(m))
    || (exists row :: row in snapshot.positions && HoldingFinding(row, Get(ledger.positions, row.symbol)) == Some(m))
    || (exists s :: s in ledger.positions && HoldingOf(snapshot.positions, s).None?
                    && GoneFinding(s, ledger.positions[s]) == Some(m))
  }

  // ---------------------------------------------------------------- comparing after projecting

  function ProjectedLedger(ledger: Ledger, snapshot: Snapshot, histories: Histories): Ledger {
    Ledger(ProjectedOrders(ledger.orders, snapshot.open, snapshot.fills),
           ledger.unsent,
           ProjectedPositions(ledger.positions, snapshot.positions, histories))
  }

  /** Orders the broker knows or may know: sent at least in part, and not ended. */
  predicate AtBroker(s: Status) {
    s in {Submitting, Acknowledged, Open, PartiallyFilled, CancelPending, ReplacePending, Unknown, Reconciling}
  }

  lemma VisibleIsAtBroker(s: Status)
    ensures BrokerVisible(s) <==> AtBroker(s)
  {
  }

  /** An order the projection leaves in disagreement with the snapshot, told from the order before it. */
  predicate Troubled(order: Option<Order>, row: Option<OpenRow>, total: Option<int>) {
    match row
    case Some(r) => total.Some? && total.value != r.filled
    case None =>
      && order.Some?
      && match total
         case None => AtBroker(order.value.status) && order.value.status != CancelPending
         case Some(t) => t > order.value.requested || (t < order.value.requested && order.value.status != CancelPending)
  }

  /** The mismatches the projection cannot remove, read off the ledger before it. */
  ghost predicate Halts(ledger: Ledger, snapshot: Snapshot) {
    || (exists o :: o in ledger.unsent && AtBroker(o.status))
    || (exists id :: Troubled(Get(ledger.orders, id), RowOf(snapshot.open, id), TotalOf(snapshot.fills, id)))
  }

  ghost predicate BalancedOrders(orders: Orders) {
    forall id :: id in orders ==> Balanced(orders[id])
  }

  lemma RowIsFound(rows: seq<OpenRow>, row: OpenRow)
    requires DistinctIds(rows) && row in rows
    ensures RowOf(rows, row.id) == Some(row)
  {
  }

  lemma HoldingIsFound(rows: seq<BrokerPosition>, row: BrokerPosition)
    requires DistinctSymbols(rows) && row in rows
    ensures HoldingOf(rows, row.symbol) == Some(row)
  {
  }

  lemma {:induction false} TotalsArePositive(fills: seq<BrokerFill>, id: BrokerId)
    requires forall f :: f in fills ==> f.quantity > 0
    ensures TotalOf(fills, id).Some? ==> TotalOf(fills, id).value > 0
  {
    if fills != [] {
      TotalsArePositive(fills[..|fills| - 1], id);
    }
  }

  /** No open row is ever missing or different right after it was projected. */
  lemma OpenRowsAgree(order: Option<Order>, row: OpenRow, total: Option<int>)
    ensures OrderFinding(row, Projected(order, Some(row), total)).None?
  {
  }

  /** Nor is any position. */
  lemma PositionsAgree(position: Option<Position>, row: BrokerPosition, history: seq<ManagedReplay.Trade>)
    requires ValidHolding(row)
    ensures HoldingFinding(row, ProjectedPosition(position, Some(row), history)).None?
  {
  }

  lemma GonePositionsAgree(position: Position, symbol: Symbol, history: seq<ManagedReplay.Trade>)
    ensures GoneFinding(symbol, ProjectedPosition(Some(position), None, history).value).None?
  {
  }

  /** The two findings about one order's own state and fills survive the projection exactly when it is troubled. */
  lemma TroubledOrdersDisagree(id: BrokerId, order: Option<Order>, row: Option<OpenRow>, total: Option<int>)
    requires order.Some? ==> Balanced(order.value)
    requires total.Some? ==> total.value > 0
    ensures var after := Projected(order, row, total);
            Troubled(order, row, total)
            <==> || (row.None? && after.Some? && AbsenceFinding(Some(id), after.value).Some?)
                 || (total.Some? && FillFinding(id, total.value, after).Some?)
  {
  }

  /** A fill total differs after the projection only on an open order, or where it exceeds what was ordered. */
  lemma FillsDisagreeExactly(id: BrokerId, order: Option<Order>, row: Option<OpenRow>, total: int)
    requires order.Some? ==> Balanced(order.value)
    requires total > 0
    ensures var after := Projected(order, row, Some(total));
            FillFinding(id, total, after).Some?
            <==> after.Some? && if row.Some? then total != row.value.filled else total > after.value.requested
  {
  }

  /**
   * After projecting a snapshot, comparing with it reports only these two kinds of
   * mismatch, in exactly these cases.
   */
  lemma ReportsAfterProjection(ledger: Ledger, snapshot: Snapshot, histories: Histories, m: Mismatch)
    requires WellFormed(snapshot) && BalancedOrders(ledger.orders)
    ensures var after := ProjectedLedger(ledger, snapshot, histories);
            Reports(after, snapshot, m)
            <==> || (exists id :: id in after.orders && RowOf(snapshot.open, id).None?
                                  && AbsenceFinding(Some(id), after.orders[id]) == Some(m))
                 || (exists o :: o in after.unsent && AbsenceFinding(None, o) == Some(m))
                 || (exists id :: id in after.orders && TotalOf(snapshot.fills, id).Some?
                                  && FillFinding(id, TotalOf(snapshot.fills, id).value, Some(after.orders[id])) ==
                                       Some(m)
                                  && if RowOf(snapshot.open, id).Some?
                                     then TotalOf(snapshot.fills, id).value != RowOf(snapshot.open, id).value.filled
                                     else TotalOf(snapshot.fills, id).value > after.orders[id].requested)
  {
    hide OrderFinding, AbsenceFinding, FillFinding, HoldingFinding, GoneFinding, Projected, ProjectedPosition, RowOf,
      TotalOf, HoldingOf, ProjectedOrders, ProjectedPositions, DistinctIds, DistinctSymbols, ValidHolding, Balanced;
    var after := ProjectedLedger(ledger, snapshot, histories);
    forall row | row in snapshot.open
      ensures OrderFinding(row, Get(after.orders, row.id)).None?
    {
      RowIsFound(snapshot.open, row);
      OpenRowsAgree(Get(ledger.orders, row.id), row, TotalOf(snapshot.fills, row.id));
    }
    forall row | row in snapshot.positions
      ensures HoldingFinding(row, Get(after.positions, row.symbol)).None?
    {
      HoldingIsFound(snapshot.positions, row);
      PositionsAgree(Get(ledger.positions, row.symbol), row, History(histories, row.symbol));
    }
    forall s | s in after.positions && HoldingOf(snapshot.positions, s).None?
      ensures GoneFinding(s, after.positions[s]).None?
    {
      NoneStaysNone(ledger.positions, snapshot.positions, histories, s);
      GonePositionsAgree(ledger.positions[s], s, History(histories, s));
    }
    forall id | TotalOf(snapshot.fills, id).Some?
      ensures var total := TotalOf(snapshot.fills, id).value;
              FillFinding(id, total, Get(after.orders, id)).Some?
              <==> id in after.orders && if RowOf(snapshot.open, id).Some?
                                         then total != RowOf(snapshot.open, id).value.filled
                                         else total > after.orders[id].requested
    {
      TotalsArePositive(snapshot.fills, id);
      FillsDisagreeExactly(id, Get(ledger.orders, id), RowOf(snapshot.open, id), TotalOf(snapshot.fills, id).value);
    }
  }

  lemma NoneStaysNone(positions: PositionTable, rows: seq<BrokerPosition>, histories: Histories, s: Symbol)
    requires HoldingOf(rows, s).None? && s in ProjectedPositions(positions, rows, histories)
    ensures s in positions
    ensures ProjectedPositions(positions, rows, histories)[s]
         == ProjectedPosition(Some(positions[s]), None, History(histories, s)).value
  {
    assert Get(ProjectedPositions(positions, rows, histories), s)
        == ProjectedPosition(Get(positions, s), HoldingOf(rows, s), History(histories, s));
  }

  /**
   * Trading halts exactly when some order was troubled, or visible at the broker
   * without a number, before the projection.
   */
  lemma HaltsExactly(ledger: Ledger, snapshot: Snapshot, histories: Histories)
    requires WellFormed(snapshot) && BalancedOrders(ledger.orders)
    ensures (exists m :: Reports(ProjectedLedger(ledger, snapshot, histories), snapshot, m)) <==>
              Halts(ledger, snapshot)
  {
    hide OrderFinding, HoldingFinding, GoneFinding, Projected, ProjectedPosition, RowOf, TotalOf, HoldingOf,
      ProjectedOrders, ProjectedPositions, WellFormed, Balanced, Reports, Troubled, FillFinding;
    var after := ProjectedLedger(ledger, snapshot, histories);
    if m :| Reports(after, snapshot, m) {
      ReportsAfterProjection(ledger, snapshot, histories, m);
      if o :| o in ledger.unsent && AbsenceFinding(None, o) == Some(m) {
        VisibleIsAtBroker(o.status);
      } else {
        ReportNamesTrouble(ledger, snapshot, histories, m);
      }
    }
    if o :| o in ledger.unsent && AtBroker(o.status) {
      VisibleIsAtBroker(o.status);
      ReportsAfterProjection(ledger, snapshot, histories, AbsenceFinding(None, o).value);
    } else if id :| Troubled(Get(ledger.orders, id), RowOf(snapshot.open, id), TotalOf(snapshot.fills, id)) {
      var m := TroubleIsReported(ledger, snapshot, histories, id);
    }
  }

  lemma ReportNamesTrouble(ledger: Ledger, snapshot: Snapshot, histories: Histories, m: Mismatch)
    requires WellFormed(snapshot) && BalancedOrders(ledger.orders)
    requires Reports(ProjectedLedger(ledger, snapshot, histories), snapshot, m)
    requires forall o :: o in ledger.unsent ==> AbsenceFinding(None, o) != Some(m)
    ensures exists id :: Troubled(Get(ledger.orders, id), RowOf(snapshot.open, id), TotalOf(snapshot.fills, id))
  {
    hide OrderFinding, AbsenceFinding, HoldingFinding, GoneFinding, Projected, ProjectedPosition, RowOf, TotalOf,
      HoldingOf, ProjectedOrders, ProjectedPositions, Balanced, Reports, Troubled, FillFinding;
    var after := ProjectedLedger(ledger, snapshot, histories);
    ReportsAfterProjection(ledger, snapshot, histories, m);
    var id :| id in after.orders
              && (|| (RowOf(snapshot.open, id).None? && AbsenceFinding(Some(id), after.orders[id]) == Some(m))
                  || (TotalOf(snapshot.fills, id).Some?
                      && FillFinding(id, TotalOf(snapshot.fills, id).value, Some(after.orders[id])) == Some(m)));
    TotalsArePositive(snapshot.fills, id);
    TroubledOrdersDisagree(id, Get(ledger.orders, id), RowOf(snapshot.open, id), TotalOf(snapshot.fills, id));
    assert Get(after.orders, id) == Some(after.orders[id]);
  }

  lemma TroubleIsReported(ledger: Ledger, snapshot: Snapshot, histories: Histories, id: BrokerId) returns (m: Mismatch)
    requires WellFormed(snapshot) && BalancedOrders(ledger.orders)
    requires Troubled(Get(ledger.orders, id), RowOf(snapshot.open, id), TotalOf(snapshot.fills, id))
    ensures Reports(ProjectedLedger(ledger, snapshot, histories), snapshot, m)
  {
    hide OrderFinding, AbsenceFinding, HoldingFinding, GoneFinding, Projected, ProjectedPosition, RowOf, TotalOf,
      HoldingOf, ProjectedOrders, ProjectedPositions, Balanced, Troubled, FillFinding;
    var after := ProjectedLedger(ledger, snapshot, histories);
    TotalsArePositive(snapshot.fills, id);
    TroubledOrdersDisagree(id, Get(ledger.orders, id), RowOf(snapshot.open, id), TotalOf(snapshot.fills, id));
    if RowOf(snapshot.open, id).None? && id in after.orders && AbsenceFinding(Some(id), after.orders[id]).Some? {
      m := AbsenceFinding(Some(id), after.orders[id]).value;
    } else {
      m := FillFinding(id, TotalOf(snapshot.fills, id).value, Get(after.orders, id)).value;
    }
  }

  /**
   * A clean comparison stays clean when the broker repeats its snapshot, unless it
   * confirmed the cancel of a partly filled order: then the repeated snapshot halts trading.
   */
  lemma CleanStaysCleanUnlessReopened(ledger: Ledger, snapshot: Snapshot, histories: Histories)
    requires WellFormed(snapshot) && BalancedOrders(ledger.orders) && !Halts(ledger, snapshot)
    ensures Halts(ProjectedLedger(ledger, snapshot, histories), snapshot)
            <==> exists id :: Reopens(Get(ledger.orders, id), RowOf(snapshot.open, id), TotalOf(snapshot.fills, id))
  {
    hide WellFormed, Projected, RowOf, TotalOf, Reopens, Troubled, ProjectedPositions, ProjectedOrders, Balanced;
    var after := ProjectedLedger(ledger, snapshot, histories);
    forall id
      ensures Troubled(Get(after.orders, id), RowOf(snapshot.open, id), TotalOf(snapshot.fills, id))
              <==> Reopens(Get(ledger.orders, id), RowOf(snapshot.open, id), TotalOf(snapshot.fills, id))
    {
      TotalsArePositive(snapshot.fills, id) by {
        AdapterFillsArePositive(snapshot);
      }
      RepeatedTrouble(Get(ledger.orders, id), RowOf(snapshot.open, id), TotalOf(snapshot.fills, id));
    }
  }

  lemma AdapterFillsArePositive(snapshot: Snapshot)
    requires WellFormed(snapshot)
    ensures forall f :: f in snapshot.fills ==> f.quantity > 0
  {
  }

  lemma RepeatedTrouble(order: Option<Order>, row: Option<OpenRow>, total: Option<int>)
    requires order.Some? ==> Balanced(order.value)
    requires total.Some? ==> total.value > 0
    requires !Troubled(order, row, total)
    ensures Troubled(Projected(order, row, total), row, total) <==> Reopens(order, row, total)
  {
  }
}
