/**
 * What a snapshot makes of an order and of a position, and what a comparison
 * finds, said without the functions that compute it.
 */
module BrokerLaws {
  import opened Common
  import opened BrokerOrders
  import opened ManagedReplay
  import opened Positions
  import opened Reconciliation
  import opened FillLedger
  import opened OwnFills
  import opened AccountProjection

  // ---------------------------------------------------------------- one order

  /** The version rises with every change of what the order says, and only then; its deadline is no part of that. */
  predicate Counts(before: Order, after: Order) {
    after.version == before.version +
      if after.(version := before.version, nextActionAt := before.nextActionAt) == before then 0 else 1
  }

  /** An order the broker lists as open says what the row says. */
  predicate SaysRow(order: Order, row: OpenRow) {
    && order.symbol == row.symbol && order.market == row.market && order.side == row.side
    && order.orderType == (if row.limitPrice.Some? then Limit else Market) && order.limitPrice == row.limitPrice
    && order.requested == row.requested && order.filled == row.filled && order.remaining == row.remaining
    && order.cancelled == row.requested - row.filled - row.remaining
    && order.status == if row.filled == 0 then Open else PartiallyFilled
  }

  /**
   * An order the broker does not list as open, with the fills it reports of it: a
   * requested cancel is confirmed for what is not filled, a full fill fills the
   * order, and a fill in part leaves it to be reconciled.
   */
  predicate NoLongerOpen(before: Order, total: Option<int>, after: Order) {
    var filled := if total.Some? then total.value else before.filled;
    if before.status == CancelPending then
      if filled < 0 || filled > before.requested then after == before
      else
        && after == before.(filled := filled, cancelled := before.requested - filled, remaining := 0,
                            status := if filled == before.requested then Filled else Cancelled,
                            nextActionAt := None, version := after.version)
        && Counts(before, after)
    else if total.None? || (filled <= 0 && filled != before.requested) || filled > before.requested then after == before
    else if filled == before.requested then
      && after == before.(filled := filled, cancelled := 0, remaining := 0, status := Filled, nextActionAt := None,
                          version := after.version)
      && Counts(before, after)
    else
      && after == before.(filled := filled, cancelled := 0, remaining := before.requested - filled,
                          status := Reconciling, version := after.version)
      && Counts(before, after)
  }

  /** One order under a snapshot, from its row and its reported fills. */
  predicate Becomes(before: Option<Order>, row: Option<OpenRow>, total: Option<int>, after: Option<Order>) {
    if row.Some? then
      && after.Some? && SaysRow(after.value, row.value)
      && if before.None? then !after.value.own && after.value.nextActionAt == None && after.value.version == 1
         else
           && after.value.own == before.value.own && after.value.nextActionAt == before.value.nextActionAt
           && Counts(before.value, after.value)
    else if before.None? then after == None
    else after.Some? && NoLongerOpen(before.value, total, after.value)
  }

  lemma OpenMeans(before: Option<Order>, row: OpenRow)
    ensures Becomes(before, Some(row), None, Opened(before, Some(row)))
  {
  }

  lemma CancelMeans(before: Order, total: Option<int>)
    requires before.status == CancelPending
    ensures var after := Projected(Some(before), None, total);
            after.Some? && NoLongerOpen(before, total, after.value)
  {
  }

  lemma FillMeans(before: Order, total: Option<int>)
    requires before.status != CancelPending
    ensures var after := Projected(Some(before), None, total);
            after.Some? && NoLongerOpen(before, total, after.value)
  {
    if total.Some? {
      var filled := FillsProjected(before, total.value);
      assert CancelProjected(filled, total.value) == filled;
      hide CancelProjected;
      assert Projected(Some(before), None, total) == Some(filled);
    }
  }

  lemma ProjectionMeans(before: Option<Order>, row: Option<OpenRow>, total: Option<int>)
    ensures Becomes(before, row, total, Projected(before, row, total))
  {
    hide NoLongerOpen, SaysRow, Counts, FillsProjected, CancelProjected;
    if row.Some? {
      OpenMeans(before, row.value);
    } else if before.Some? {
      if before.value.status == CancelPending {
        CancelMeans(before.value, total);
      } else {
        FillMeans(before.value, total);
      }
    }
  }

  /** The numbers of an open row fit together. */
  predicate AddsUp(row: OpenRow) {
    row.requested > 0 && row.filled >= 0 && row.remaining >= 0 && row.filled + row.remaining <= row.requested
  }

  lemma ValidRowsAddUp(row: OpenRow)
    ensures ValidOpenRow(row) <==> AddsUp(row)
  {
  }

  // ---------------------------------------------------------------- one position

  /**
   * A reported position has the broker's quantity, available quantity and average.
   * Its managed part is what the fills read say, or without any what it was, up to
   * the quantity, at the average cost that goes with it.
   */
  predicate SaysHolding(p: Position, row: BrokerPosition, before: Option<Position>, trades: seq<Trade>) {
    && p.quantity == row.quantity && p.available == row.available && p.average == row.average && p.state == Held
    && p.managed == Min(if trades != [] then Replay(trades).quantity
                        else if before.Some? then Max(0, before.value.managed) else 0, row.quantity)
    && p.managedAverage == (if p.managed == 0 then 0.0
                            else if trades != [] then Replay(trades).average
                            else if before.Some? then before.value.managedAverage else 0.0)
    && (p.origin == External <==> p.managed == 0)
    && (p.origin == CrestaManaged <==> p.managed == row.quantity)
    && p.version == if before.None? then 1
                    else before.value.version + if p.(version := before.value.version) == before.value then 0 else 1
  }

  lemma HoldingMeans(before: Option<Position>, row: BrokerPosition, trades: seq<Trade>)
    requires ValidHolding(row)
    ensures var after := ProjectedPosition(before, Some(row), trades);
            after.Some? && SaysHolding(after.value, row, before, trades)
  {
    hide Replay;
  }

  /** A position that is not reported is closed, once. */
  predicate IsGone(before: Position, after: Position) {
    if before.state == Closed then after == before
    else after == Position(0, 0, 0.0, 0, 0.0, Closed, before.origin, before.version + 1)
  }

  lemma GoneMeans(before: Option<Position>, trades: seq<Trade>)
    ensures var after := ProjectedPosition(before, None, trades);
            after.Some? == before.Some? && (after.Some? ==> IsGone(before.value, after.value))
  {
  }

  // ---------------------------------------------------------------- the whole account

  ghost predicate SaysSnapshot(a: Account, snapshot: Snapshot, clock: Clock, rank: Rank, after: Account) {
    && after.unsent == a.unsent
    && (forall id ::
          Becomes(Get(a.orders, id), RowOf(snapshot.open, id), TotalOf(snapshot.fills, id), Get(after.orders, id)))
    && (forall row :: row in snapshot.positions ==>
          && row.symbol in after.positions
          && SaysHolding(after.positions[row.symbol], row, Get(a.positions, row.symbol),
                         History(Seen(a, snapshot, clock, rank), row.symbol)))
    && (forall s :: s in after.positions && HoldingOf(snapshot.positions, s).None? ==>
          s in a.positions && IsGone(a.positions[s], after.positions[s]))
    && (forall s :: s in a.positions ==> s in after.positions)
  }

  lemma ProjectedAccountMeans(a: Account, snapshot: Snapshot, clock: Clock, rank: Rank)
    requires WellFormed(snapshot)
    ensures SaysSnapshot(a, snapshot, clock, rank, ProjectedAccount(a, snapshot, clock, rank))
  {
    hide ProjectedAccount, Seen, ProjectedPosition, SaysHolding, IsGone, Becomes, Projected, RowOf, TotalOf, HoldingOf,
      ValidHolding;
    var after := ProjectedAccount(a, snapshot, clock, rank);
    OrdersProjected(a, snapshot, clock, rank);
    var histories := Seen(a, snapshot, clock, rank);
    forall id
      ensures Becomes(Get(a.orders, id), RowOf(snapshot.open, id), TotalOf(snapshot.fills, id), Get(after.orders, id))
    {
      ProjectionMeans(Get(a.orders, id), RowOf(snapshot.open, id), TotalOf(snapshot.fills, id));
    }
    forall row | row in snapshot.positions
      ensures row.symbol in after.positions
      ensures SaysHolding(after.positions[row.symbol], row, Get(a.positions, row.symbol),
                          History(histories, row.symbol))
    {
      HoldingIsFound(snapshot.positions, row);
      HoldingMeans(Get(a.positions, row.symbol), row, History(histories, row.symbol));
      assert Get(after.positions, row.symbol) ==
        ProjectedPosition(Get(a.positions, row.symbol), Some(row), History(histories, row.symbol));
    }
    forall s | HoldingOf(snapshot.positions, s).None?
      ensures s in after.positions ==> s in a.positions && IsGone(a.positions[s], after.positions[s])
      ensures s in a.positions ==> s in after.positions
    {
      GoneMeans(Get(a.positions, s), History(histories, s));
      assert Get(after.positions, s) == ProjectedPosition(Get(a.positions, s), None, History(histories, s));
    }
    forall s | HoldingOf(snapshot.positions, s).Some?
      ensures s in after.positions
    {
      assert HoldingOf(snapshot.positions, s).value in snapshot.positions;
    }
  }

  // ---------------------------------------------------------------- what a comparison finds

  predicate Disagree(row: OpenRow, order: Order) {
    row.symbol != order.symbol || row.side != order.side || row.requested != order.requested
    || row.filled != order.filled || row.remaining != order.remaining
  }

  predicate IsHeld(positions: PositionTable, s: Symbol) {
    s in positions && positions[s].state == Held
  }

  /** The comparison has something to report under this code and symbol. */
  ghost predicate Finds(ledger: Ledger, snapshot: Snapshot, code: Code, symbol: Symbol) {
    match code
    case BrokerOrderMissingInternal =>
      exists row :: row in snapshot.open && row.symbol == symbol
                    && (row.id !in ledger.orders || !AtBroker(ledger.orders[row.id].status))
    case OrderStateMismatch =>
      exists row :: row in snapshot.open && row.symbol == symbol && row.id in ledger.orders
                    && AtBroker(ledger.orders[row.id].status) && Disagree(row, ledger.orders[row.id])
    case InternalOrderMissingBroker =>
      || (exists id :: id in ledger.orders && ledger.orders[id].symbol == symbol
                       && AtBroker(ledger.orders[id].status) && forall row :: row in snapshot.open ==> row.id != id)
      || (exists o :: o in ledger.unsent && o.symbol == symbol && AtBroker(o.status))
    case FillQuantityMismatch =>
      exists id :: id in ledger.orders && ledger.orders[id].symbol == symbol
                   && TotalOf(snapshot.fills, id).Some?
                   && TotalOf(snapshot.fills, id).value != ledger.orders[id].filled
    case UnknownExternalPosition =>
      exists row :: row in snapshot.positions && row.symbol == symbol && !IsHeld(ledger.positions, symbol)
    case PositionQuantityMismatch =>
      && IsHeld(ledger.positions, symbol)
      && forall row :: row in snapshot.positions && row.symbol == symbol ==>
           row.quantity != ledger.positions[symbol].quantity
    case AveragePriceMismatch =>
      exists row :: row in snapshot.positions && row.symbol == symbol && IsHeld(ledger.positions, symbol)
                    && row.quantity == ledger.positions[symbol].quantity
                    && row.average != ledger.positions[symbol].average
  }

  ghost predicate IsReported(ledger: Ledger, snapshot: Snapshot, code: Code, symbol: Symbol) {
    exists m :: Reports(ledger, snapshot, m) && m.code == code && m.symbol == symbol
  }

  lemma RowsSpelledOut(row: OpenRow, order: Option<Order>)
    ensures var m := OrderFinding(row, order);
            && (m.Some? ==> m.value.symbol == row.symbol)
            && (m.Some? && m.value.code == BrokerOrderMissingInternal <==> order.None? || !AtBroker(order.value.status))
            && (m.Some? && m.value.code == OrderStateMismatch <==>
                  order.Some? && AtBroker(order.value.status) && Disagree(row, order.value))
            && (m.Some? ==> m.value.code in {BrokerOrderMissingInternal, OrderStateMismatch})
  {
  }

  lemma AbsenceSpelledOut(id: Option<BrokerId>, order: Order)
    ensures var m := AbsenceFinding(id, order);
            && (m.Some? <==> AtBroker(order.status))
            && (m.Some? ==> m.value.code == InternalOrderMissingBroker && m.value.symbol == order.symbol)
  {
  }

  lemma FillsSpelledOut(id: BrokerId, total: int, order: Option<Order>)
    ensures var m := FillFinding(id, total, order);
            && (m.Some? <==> order.Some? && total != order.value.filled)
            && (m.Some? ==> m.value.code == FillQuantityMismatch && m.value.symbol == order.value.symbol)
  {
  }

  lemma HoldingsSpelledOut(row: BrokerPosition, position: Option<Position>)
    ensures var m := HoldingFinding(row, position);
            var held := position.Some? && position.value.state == Held;
            && (m.Some? ==> m.value.symbol == row.symbol)
            && (m.Some? && m.value.code == UnknownExternalPosition <==> !held)
            && (m.Some? && m.value.code == PositionQuantityMismatch <==>
                held && row.quantity != position.value.quantity)
            && (m.Some? && m.value.code == AveragePriceMismatch <==>
                  held && row.quantity == position.value.quantity && row.average != position.value.average)
            && (m.Some? ==> m.value.code in {UnknownExternalPosition, PositionQuantityMismatch, AveragePriceMismatch})
  {
  }

  lemma GoneSpelledOut(s: Symbol, position: Position)
    ensures var m := GoneFinding(s, position);
            && (m.Some? <==> position.state == Held)
            && (m.Some? ==> m.value.code == PositionQuantityMismatch && m.value.symbol == s)
  {
  }

  /** All single findings, spelled out over the whole comparison. */
  lemma SpellOut(ledger: Ledger, snapshot: Snapshot, m: Mismatch)
    ensures forall row :: row in snapshot.open && OrderFinding(row, Get(ledger.orders, row.id)) == Some(m) ==>
              m.code in {BrokerOrderMissingInternal, OrderStateMismatch} && Finds(ledger, snapshot, m.code, m.symbol)
    ensures forall id ::
              && id in ledger.orders && RowOf(snapshot.open, id).None?
              && AbsenceFinding(Some(id), ledger.orders[id]) == Some(m) ==>
                m.code == InternalOrderMissingBroker && Finds(ledger, snapshot, m.code, m.symbol)
    ensures forall o :: o in ledger.unsent && AbsenceFinding(None, o) == Some(m) ==>
              m.code == InternalOrderMissingBroker && Finds(ledger, snapshot, m.code, m.symbol)
    ensures forall id ::
              && TotalOf(snapshot.fills, id).Some?
              && FillFinding(id, TotalOf(snapshot.fills, id).value, Get(ledger.orders, id)) == Some(m) ==>
                m.code == FillQuantityMismatch && Finds(ledger, snapshot, m.code, m.symbol)
  {
    hide OrderFinding, AbsenceFinding, FillFinding, RowOf, TotalOf;
    forall row | row in snapshot.open && OrderFinding(row, Get(ledger.orders, row.id)) == Some(m)
      ensures m.code in {BrokerOrderMissingInternal, OrderStateMismatch} && Finds(ledger, snapshot, m.code, m.symbol)
    {
      RowsSpelledOut(row, Get(ledger.orders, row.id));
    }
    forall id | id in ledger.orders && RowOf(snapshot.open, id).None?
                && AbsenceFinding(Some(id), ledger.orders[id]) == Some(m)
      ensures m.code == InternalOrderMissingBroker && Finds(ledger, snapshot, m.code, m.symbol)
    {
      AbsenceSpelledOut(Some(id), ledger.orders[id]);
    }
    forall o | o in ledger.unsent && AbsenceFinding(None, o) == Some(m)
      ensures m.code == InternalOrderMissingBroker && Finds(ledger, snapshot, m.code, m.symbol)
    {
      AbsenceSpelledOut(None, o);
    }
    forall id | TotalOf(snapshot.fills, id).Some?
                && FillFinding(id, TotalOf(snapshot.fills, id).value, Get(ledger.orders, id)) == Some(m)
      ensures m.code == FillQuantityMismatch && Finds(ledger, snapshot, m.code, m.symbol)
    {
      FillsSpelledOut(id, TotalOf(snapshot.fills, id).value, Get(ledger.orders, id));
    }
  }

  lemma SpellOutHoldings(ledger: Ledger, snapshot: Snapshot, m: Mismatch)
    requires DistinctSymbols(snapshot.positions)
    ensures forall row ::
              && row in snapshot.positions
              && HoldingFinding(row, Get(ledger.positions, row.symbol)) == Some(m) ==>
                m.code in {UnknownExternalPosition, PositionQuantityMismatch, AveragePriceMismatch}
                && Finds(ledger, snapshot, m.code, m.symbol)
    ensures forall s ::
              && s in ledger.positions && HoldingOf(snapshot.positions, s).None?
              && GoneFinding(s, ledger.positions[s]) == Some(m) ==>
                m.code == PositionQuantityMismatch && Finds(ledger, snapshot, m.code, m.symbol)
  {
    hide HoldingFinding, GoneFinding, HoldingOf;
    forall row | row in snapshot.positions && HoldingFinding(row, Get(ledger.positions, row.symbol)) == Some(m)
      ensures m.code in {UnknownExternalPosition, PositionQuantityMismatch, AveragePriceMismatch}
      ensures Finds(ledger, snapshot, m.code, m.symbol)
    {
      HoldingsSpelledOut(row, Get(ledger.positions, row.symbol));
    }
    forall s | s in ledger.positions && HoldingOf(snapshot.positions, s).None?
               && GoneFinding(s, ledger.positions[s]) == Some(m)
      ensures m.code == PositionQuantityMismatch && Finds(ledger, snapshot, m.code, m.symbol)
    {
      GoneSpelledOut(s, ledger.positions[s]);
    }
  }

  lemma ReportedIsFound(ledger: Ledger, snapshot: Snapshot, m: Mismatch)
    requires DistinctSymbols(snapshot.positions) && Reports(ledger, snapshot, m)
    ensures Finds(ledger, snapshot, m.code, m.symbol)
  {
    hide OrderFinding, AbsenceFinding, FillFinding, HoldingFinding, GoneFinding, RowOf, TotalOf, HoldingOf, Finds;
    SpellOut(ledger, snapshot, m);
    SpellOutHoldings(ledger, snapshot, m);
  }

  lemma FoundIsReported(ledger: Ledger, snapshot: Snapshot, code: Code, symbol: Symbol) returns (m: Mismatch)
    requires DistinctSymbols(snapshot.positions) && Finds(ledger, snapshot, code, symbol)
    ensures Reports(ledger, snapshot, m) && m.code == code && m.symbol == symbol
  {
    hide OrderFinding, AbsenceFinding, FillFinding, HoldingFinding, GoneFinding, RowOf, TotalOf, HoldingOf;
    match code
    case BrokerOrderMissingInternal =>
      var row :| row in snapshot.open && row.symbol == symbol
                 && (row.id !in ledger.orders || !AtBroker(ledger.orders[row.id].status));
      RowsSpelledOut(row, Get(ledger.orders, row.id));
      m := OrderFinding(row, Get(ledger.orders, row.id)).value;
    case OrderStateMismatch =>
      var row :| row in snapshot.open && row.symbol == symbol && row.id in ledger.orders
                 && AtBroker(ledger.orders[row.id].status) && Disagree(row, ledger.orders[row.id]);
      RowsSpelledOut(row, Get(ledger.orders, row.id));
      m := OrderFinding(row, Get(ledger.orders, row.id)).value;
    case InternalOrderMissingBroker =>
      m := AbsenceIsReported(ledger, snapshot, symbol);
    case FillQuantityMismatch =>
      var id :| id in ledger.orders && ledger.orders[id].symbol == symbol && TotalOf(snapshot.fills, id).Some?
                && TotalOf(snapshot.fills, id).value != ledger.orders[id].filled;
      FillsSpelledOut(id, TotalOf(snapshot.fills, id).value, Get(ledger.orders, id));
      m := FillFinding(id, TotalOf(snapshot.fills, id).value, Get(ledger.orders, id)).value;
    case UnknownExternalPosition =>
      var row :| row in snapshot.positions && row.symbol == symbol && !IsHeld(ledger.positions, symbol);
      HoldingsSpelledOut(row, Get(ledger.positions, symbol));
      m := HoldingFinding(row, Get(ledger.positions, symbol)).value;
    case PositionQuantityMismatch =>
      var row := HoldingOf(snapshot.positions, symbol);
      if row.Some? {
        HoldingsSpelledOut(row.value, Get(ledger.positions, symbol));
        m := HoldingFinding(row.value, Get(ledger.positions, symbol)).value;
      } else {
        GoneSpelledOut(symbol, ledger.positions[symbol]);
        m := GoneFinding(symbol, ledger.positions[symbol]).value;
      }
    case AveragePriceMismatch =>
      var row :| row in snapshot.positions && row.symbol == symbol && IsHeld(ledger.positions, symbol)
                 && row.quantity == ledger.positions[symbol].quantity
                 && row.average != ledger.positions[symbol].average;
      HoldingsSpelledOut(row, Get(ledger.positions, symbol));
      m := HoldingFinding(row, Get(ledger.positions, symbol)).value;
  }

  lemma AbsenceIsReported(ledger: Ledger, snapshot: Snapshot, symbol: Symbol) returns (m: Mismatch)
    requires Finds(ledger, snapshot, InternalOrderMissingBroker, symbol)
    ensures Reports(ledger, snapshot, m) && m.code == InternalOrderMissingBroker && m.symbol == symbol
  {
    hide OrderFinding, AbsenceFinding, FillFinding, HoldingFinding, GoneFinding, RowOf, TotalOf, HoldingOf;
    if id :| id in ledger.orders && ledger.orders[id].symbol == symbol && AtBroker(ledger.orders[id].status)
             && forall row :: row in snapshot.open ==> row.id != id {
      AbsenceSpelledOut(Some(id), ledger.orders[id]);
      m := AbsenceFinding(Some(id), ledger.orders[id]).value;
      assert RowOf(snapshot.open, id).None?;
    } else {
      var o :| o in ledger.unsent && o.symbol == symbol && AtBroker(o.status);
      AbsenceSpelledOut(None, o);
      m := AbsenceFinding(None, o).value;
    }
  }

  /** A comparison reports a mismatch of a kind for a symbol exactly if ledger and snapshot differ in that way. */
  lemma ReportsMean(ledger: Ledger, snapshot: Snapshot, code: Code, symbol: Symbol)
    requires DistinctSymbols(snapshot.positions)
    ensures IsReported(ledger, snapshot, code, symbol) <==> Finds(ledger, snapshot, code, symbol)
  {
    hide Reports, Finds, DistinctSymbols;
    if m :| Reports(ledger, snapshot, m) && m.code == code && m.symbol == symbol {
      ReportedIsFound(ledger, snapshot, m);
    }
    if Finds(ledger, snapshot, code, symbol) {
      var m := FoundIsReported(ledger, snapshot, code, symbol);
    }
  }

  lemma AllReportsMean(ledger: Ledger, snapshot: Snapshot)
    requires WellFormed(snapshot)
    ensures forall code, symbol ::
              (exists m :: Reports(ledger, snapshot, m) && m.code == code && m.symbol == symbol) <==>
                Finds(ledger, snapshot, code, symbol)
  {
    hide Reports, Finds, DistinctSymbols;
    forall code, symbol
      ensures IsReported(ledger, snapshot, code, symbol) <==> Finds(ledger, snapshot, code, symbol)
    {
      ReportsMean(ledger, snapshot, code, symbol);
    }
  }
}
