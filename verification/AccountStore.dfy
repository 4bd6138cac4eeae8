/**
 * The account tables and the reconciliation run that updates them in place:
 * project a broker snapshot, compare, record what still differs, set the gate.
 */
module AccountStore {
  import opened Common
  import opened BrokerOrders
  import opened FillLedger
  import opened ManagedReplay
  import opened OwnFills
  import opened Positions
  import opened Reconciliation
  import opened AccountProjection
  import opened BrokerLaws

  datatype Gate = Gate(status: GateStatus, reason: string, version: nat)

  datatype RunState = Running | MismatchFound | Succeeded | Failed

  /** A recorded mismatch, as far as later runs look at it. */
  datatype Finding = Finding(run: nat, code: Code, symbol: Symbol, isOpen: bool)

  // ---------------------------------------------------------------- specification of the passes

  /** One order after the open rows and the fill totals, before the confirmed cancels. */
  function Refilled(order: Option<Order>, row: Option<OpenRow>, total: Option<int>): Option<Order> {
    var seen := Opened(order, row);
    if row.Some? || seen.None? || total.None? then seen else Some(FillsProjected(seen.value, total.value))
  }

  lemma CancelsComeLast(order: Option<Order>, row: Option<OpenRow>, total: Option<int>)
    ensures var filled := Refilled(order, row, total);
            Projected(order, row, total)
            == if row.Some? || filled.None? then filled
               else Some(CancelProjected(filled.value, if total.Some? then total.value else filled.value.filled))
  {
  }

  lemma UnknownOrdersStay(orders: Orders, was: Orders, open: seq<OpenRow>, totals: map<BrokerId, int>)
    requires forall id :: Get(orders, id) == Refilled(Get(was, id), RowOf(open, id), Get(totals, id))
    ensures forall id :: id !in orders ==> Get(orders, id) == Projected(Get(was, id), RowOf(open, id), Get(totals, id))
  {
    hide Refilled, Projected, RowOf;
    forall id | id !in orders
      ensures Get(orders, id) == Projected(Get(was, id), RowOf(open, id), Get(totals, id))
    {
      CancelsComeLast(Get(was, id), RowOf(open, id), Get(totals, id));
    }
  }

  class BrokerAccount {
    var orders: Orders
    var unsent: seq<Order>
    var ledger: seq<FillKey>
    var filledAt: map<FillKey, int>
    var positions: PositionTable
    var gate: Option<Gate>
    var runs: seq<RunState>
    var findings: seq<Finding>

    ghost predicate Valid()
      reads this
    {
      && BalancedOrders(orders)
      && NoDuplicates(ledger)
      && (forall s :: s in positions ==> Attributed(positions[s]))
      && (forall i :: 0 <= i < |findings| ==> findings[i].run < |runs|)
    }

    ghost function Model(): Account
      reads this
    {
      Account(orders, unsent, positions, ledger, filledAt)
    }

    constructor ()
      ensures Valid() && Model() == Account(map[], [], map[], [], map[]) && gate == None && runs == [] && findings == []
    {
      orders, unsent, ledger, filledAt, positions, gate, runs, findings := map[], [], [], map[], map[], None, [], [];
    }

    // -------------------------------------------------------------- the projection

    /** Also returns the orders as last flushed: inserting a new order flushes all changes before it. */
    method ProjectOpenRows(open: seq<OpenRow>) returns (ok: bool, flushed: Orders)
      requires DistinctIds(open)
      modifies `orders
      ensures ok <==> forall r :: r in open ==> ValidOpenRow(r)
      ensures ok <==> forall r :: r in open ==> AddsUp(r)
      ensures ok ==> forall id :: Get(orders, id) == Opened(Get(old(orders), id), RowOf(open, id))
      ensures ok ==> flushed == OpenedOrders(old(orders), open[..FlushedRows(old(orders), open)])
    {
      hide AddsUp, ApplyOpenRow, Import, OpenedOrders, ValidOpenRow, AreOpened, FlushedRows, RowOf, DistinctIds;
      forall r
        ensures ValidOpenRow(r) <==> AddsUp(r)
      {
        ValidRowsAddUp(r);
      }
      ghost var n := 0;
      flushed := orders;
      NothingOpened(orders, open);
      for i := 0 to |open|
        invariant forall j :: 0 <= j < i ==> ValidOpenRow(open[j])
        invariant AreOpened(orders, old(orders), open, i)
        invariant n == FlushedRows(old(orders), open[..i]) <= i && AreOpened(flushed, old(orders), open, n)
      {
        var row := open[i];
        if !ValidOpenRow(row) {
          ok := false;
          return;
        }
        OpenOneMore(old(orders), orders, open, i);
        if row.id !in orders {
          orders := orders[row.id := Import(row)];
          flushed, n := orders, i + 1;
        } else {
          orders := orders[row.id := ApplyOpenRow(orders[row.id], row)];
        }
      }
      assert open[..|open|] == open;
      OpenedAtLast(old(orders), orders, open, |open|);
      OpenedAtLast(old(orders), flushed, open, n);
      ok := true;
    }

    static method FillTotals(fills: seq<BrokerFill>) returns (totals: map<BrokerId, int>)
      ensures forall id :: Get(totals, id) == TotalOf(fills, id)
    {
      totals := map[];
      for i := 0 to |fills|
        invariant forall id :: Get(totals, id) == TotalOf(fills[..i], id)
      {
        assert fills[..i + 1][..i] == fills[..i];
        var f := fills[i];
        assert Get(totals, f.id) == TotalOf(fills[..i], f.id);
        totals := totals[f.id := (if f.id in totals then totals[f.id] else 0) + f.quantity];
      }
      assert fills[..|fills|] == fills;
    }

    method RecordFills(fills: seq<BrokerFill>, totals: map<BrokerId, int>, date: int, clock: Clock) returns (ok: bool)
      requires forall id :: Get(totals, id) == TotalOf(fills, id)
      modifies `ledger, `filledAt
      ensures ok <==> !Unreadable(old(ledger), orders, fills, clock)
      ensures ok ==> ledger == Record(old(ledger), orders, fills)
      ensures ok ==> filledAt == Timed(old(filledAt), NewFills(old(ledger), orders, fills, |fills|), date, clock)
    {
      hide TotalOf, Occurrences, Eligible, NewFills, KeyAt, IsNew, Timed, FillTime, CountsEligible, Counted;
      var overfilled := set id | id in totals && id in orders && totals[id] > orders[id].requested;
      var occurrences: map<BrokerFill, nat> := map[];
      NothingRecordedYet(ledger, filledAt, orders, fills, date, clock);
      for i := 0 to |fills|
        invariant CountsEligible(occurrences, orders, fills, i)
        invariant ledger == old(ledger) + NewFills(old(ledger), orders, fills, i)
        invariant filledAt == Timed(old(filledAt), NewFills(old(ledger), orders, fills, i), date, clock)
        invariant forall j :: 0 <= j < i && IsNew(old(ledger), orders, fills, j) ==> clock(fills[j].orderTime).Some?
      {
        var fill := fills[i];
        CountOneMore(occurrences, orders, fills, i);
        EligibleUnlessOverfilled(orders, fills, totals, overfilled, fill);
        RecordOneMore(old(ledger), old(filledAt), orders, fills, i, date, clock);
        if fill.id in orders && fill.id !in overfilled {
          var occurrence := Counted(occurrences, fill);
          occurrences := occurrences[fill := occurrence + 1];
          var key := FillKey(fill, occurrence);
          if key !in ledger {
            if clock(fill.orderTime).None? {
              return false;
            }
            ledger := ledger + [key];
            filledAt := filledAt[key := FillTime(date, clock, key)];
          }
        }
      }
      return true;
    }

    method ProjectFillTotals(open: seq<OpenRow>, totals: map<BrokerId, int>, ghost was: Orders)
      requires forall id :: Get(orders, id) == Opened(Get(was, id), RowOf(open, id))
      modifies `orders
      ensures forall id :: Get(orders, id) == Refilled(Get(was, id), RowOf(open, id), Get(totals, id))
    {
      hide FillsProjected, Opened, RowOf;
      var todo := totals.Keys;
      while todo != {}
        invariant todo <= totals.Keys
        invariant forall id :: Get(orders, id) == if id in todo then Opened(Get(was, id), RowOf(open, id))
                                                  else Refilled(Get(was, id), RowOf(open, id), Get(totals, id))
        decreases |todo|
      {
        var id :| id in todo;
        todo := todo - {id};
        assert Get(orders, id) == Opened(Get(was, id), RowOf(open, id));
        if id in orders && RowOf(open, id).None? {
          orders := orders[id := FillsProjected(orders[id], totals[id])];
        }
      }
    }

    method ProjectCancels(open: seq<OpenRow>, totals: map<BrokerId, int>, ghost was: Orders)
      requires forall id :: Get(orders, id) == Refilled(Get(was, id), RowOf(open, id), Get(totals, id))
      modifies `orders
      ensures forall id :: Get(orders, id) == Projected(Get(was, id), RowOf(open, id), Get(totals, id))
    {
      hide FillsProjected, CancelProjected, Opened, RowOf, Refilled, Projected;
      UnknownOrdersStay(orders, was, open, totals);
      var todo := orders.Keys;
      while todo != {}
        invariant todo <= orders.Keys
        invariant forall id :: Get(orders, id) == if id in todo
                                                  then Refilled(Get(was, id), RowOf(open, id), Get(totals, id))
                                                  else Projected(Get(was, id), RowOf(open, id), Get(totals, id))
        decreases |todo|
      {
        var id :| id in todo;
        todo := todo - {id};
        CancelsComeLast(Get(was, id), RowOf(open, id), Get(totals, id));
        ghost var current := orders;
        assert Get(current, id) == Refilled(Get(was, id), RowOf(open, id), Get(totals, id));
        if RowOf(open, id).None? {
          var total := if id in totals then totals[id] else orders[id].filled;
          orders := orders[id := CancelProjected(orders[id], total)];
        }
        assert forall i :: i != id ==> Get(orders, i) == Get(current, i);
      }
    }

    /** The replays read what the database held before, until inserting a new position flushes everything. */
    method ProjectPositions(rows: seq<BrokerPosition>, before: Stored, after: Stored, rank: Rank)
      requires DistinctSymbols(rows)
      modifies `positions
      ensures positions == ProjectedPositions(old(positions), rows,
                                              SeenHistories(old(positions), rows, before, after, rank))
    {
      ApplyHoldings(rows, before, after, rank);
      CloseOthers(rows, old(positions), SeenHistories(old(positions), rows, before, after, rank));
    }

    method ApplyHoldings(rows: seq<BrokerPosition>, before: Stored, after: Stored, rank: Rank)
      requires DistinctSymbols(rows)
      modifies `positions
      ensures forall s :: Get(positions, s) == HoldingApplied(old(positions), rows, |rows|,
                                                              SeenHistories(old(positions), rows, before, after, rank),
                                                                s)
    {
      hide Imported, Updated, ClosedOut, Replay, OwnTrades, SeenHistories, HoldingOf, HoldingApplied, InsertsPosition,
        History;
      var seen := before;
      ghost var histories := SeenHistories(positions, rows, before, after, rank);
      NothingApplied(positions, rows, histories);
      for i := 0 to |rows|
        invariant seen == if InsertsPosition(old(positions), rows[..i]) then after else before
        invariant forall s :: Get(positions, s) == HoldingApplied(old(positions), rows, i, histories, s)
      {
        var row := rows[i];
        ApplyOneMore(old(positions), rows, i, histories);
        assert Get(positions, row.symbol) == Get(old(positions), row.symbol);
        SeenByRow(old(positions), rows, before, after, rank, i);
        var replayed := ReplayManagedPosition(OwnTrades(seen, rank, row.symbol));
        InsertsOneMore(old(positions), rows, i);
        ghost var current := positions;
        if row.symbol !in positions {
          positions := positions[row.symbol := Imported(row, replayed)];
          seen := after;
        } else {
          positions := positions[row.symbol := Updated(positions[row.symbol], row, replayed)];
        }
        assert forall s :: s != row.symbol ==> Get(positions, s) == Get(current, s);
      }
    }

    method CloseOthers(rows: seq<BrokerPosition>, ghost was: PositionTable, ghost histories: Histories)
      requires forall s :: Get(positions, s) == HoldingApplied(was, rows, |rows|, histories, s)
      modifies `positions
      ensures positions == ProjectedPositions(was, rows, histories)
    {
      hide Imported, Updated, ClosedOut, Replay, HoldingOf;
      assert rows[..|rows|] == rows;
      var todo := positions.Keys;
      while todo != {}
        invariant todo <= positions.Keys
        invariant forall s :: Get(positions, s) == if s in todo then HoldingApplied(was, rows, |rows|, histories, s)
                                                   else ProjectedPosition(Get(was, s), HoldingOf(rows, s),
                                                       History(histories, s))
        decreases |todo|
      {
        var s :| s in todo;
        todo := todo - {s};
        assert Get(positions, s) == HoldingApplied(was, rows, |rows|, histories, s);
        if HoldingOf(rows, s).None? {
          positions := positions[s := ClosedOut(positions[s])];
        }
      }
      SameGets(positions, ProjectedPositions(was, rows, histories));
    }

    /** Writes a snapshot over the tables. When it reports failure the caller rolls every table back. */
    method ApplyBrokerAccountProjection(snapshot: Snapshot, clock: Clock, rank: Rank) returns (ok: bool)
      requires Valid() && WellFormed(snapshot)
      modifies `orders, `ledger, `filledAt, `positions
      ensures ok <==> !Unprojectable(old(Model()), snapshot, clock)
      ensures ok ==> Valid() && Model() == ProjectedAccount(old(Model()), snapshot, clock, rank)
      ensures ok ==> Recorded(old(ledger), ledger, orders, snapshot.fills)
      ensures ok ==> SaysSnapshot(old(Model()), snapshot, clock, rank, Model())
    {
      hide SaysSnapshot, Projected, Refilled, Opened, RowOf, TotalOf, ValidOpenRow, Attributed, Balanced,
        ProjectedPositions, ProjectedPosition, DistinctIds, DistinctSymbols, ValidHolding, Eligible, OpenedOrders,
        FlushedRows, SeenHistories, Record, NewFills, Timed, IsNew, ProjectedOrders, NoDuplicates;
      var fillsBefore, timesBefore := ledger, filledAt;
      var flushed;
      ok, flushed := ProjectOpenRows(snapshot.open);
      if !ok {
        return;
      }
      var totals := FillTotals(snapshot.fills);
      ok := RecordFills(snapshot.fills, totals, snapshot.date, clock);
      SameRecordingLater(old(orders), orders, old(ledger), snapshot, clock);
      if !ok {
        return;
      }
      ProjectFillTotals(snapshot.open, totals, old(orders));
      ProjectCancels(snapshot.open, totals, old(orders));
      SameGets(orders, ProjectedOrders(old(orders), snapshot.open, snapshot.fills));
      ProjectPositions(snapshot.positions, Stored(flushed, fillsBefore, timesBefore), Stored(orders, ledger, filledAt),
                       rank);
      ProjectedAccountMeans(old(Model()), snapshot, clock, rank);
      ProjectionKeepsTables(LedgerOf(old(Model())), snapshot, Seen(old(Model()), snapshot, clock, rank));
      RecordIsRecorded(old(ledger), orders, snapshot.fills);
      RecordedHasNoDuplicates(old(ledger), ledger, orders, snapshot.fills);
    }

    // -------------------------------------------------------------- the comparison

    method CompareOpenRows(open: seq<OpenRow>) returns (found: seq<Mismatch>)
      ensures forall m :: m in found <==> exists row :: row in open && OrderFinding(row, Get(orders, row.id)) == Some(m)
    {
      hide OrderFinding;
      found := [];
      for i := 0 to |open|
        invariant forall m :: m in found ==>
                    exists row :: row in open && OrderFinding(row, Get(orders, row.id)) == Some(m)
        invariant forall j :: 0 <= j < i ==> Listed(found, OrderFinding(open[j], Get(orders, open[j].id)))
      {
        found := found + AsList(OrderFinding(open[i], Get(orders, open[i].id)));
      }
      forall row | row in open
        ensures Listed(found, OrderFinding(row, Get(orders, row.id)))
      {
        var j :| 0 <= j < |open| && open[j] == row;
      }
    }

    method CompareOwnOrders(open: seq<OpenRow>) returns (found: seq<Mismatch>)
      ensures forall m :: m in found <==>
                || (exists id :: id in orders && RowOf(open, id).None?
                                  && AbsenceFinding(Some(id), orders[id]) == Some(m))
                || (exists o :: o in unsent && AbsenceFinding(None, o) == Some(m))
    {
      hide AbsenceFinding;
      found := [];
      var todo := orders.Keys;
      while todo != {}
        invariant todo <= orders.Keys
        invariant forall m :: m in found ==>
                    exists id :: id in orders && RowOf(open, id).None?
                      && AbsenceFinding(Some(id), orders[id]) == Some(m)
        invariant forall id :: id in orders && id !in todo && RowOf(open, id).None? ==>
                    Listed(found, AbsenceFinding(Some(id), orders[id]))
        decreases |todo|
      {
        var id :| id in todo;
        todo := todo - {id};
        if RowOf(open, id).None? {
          found := found + AsList(AbsenceFinding(Some(id), orders[id]));
        }
      }
      var numbered := found;
      for i := 0 to |unsent|
        invariant numbered <= found
        invariant forall m :: m in found ==>
                    m in numbered || exists o :: o in unsent && AbsenceFinding(None, o) == Some(m)
        invariant forall j :: 0 <= j < i ==> Listed(found, AbsenceFinding(None, unsent[j]))
      {
        found := found + AsList(AbsenceFinding(None, unsent[i]));
      }
      forall o | o in unsent
        ensures Listed(found, AbsenceFinding(None, o))
      {
        var j :| 0 <= j < |unsent| && unsent[j] == o;
      }
    }

    method CompareFills(fills: seq<BrokerFill>) returns (found: seq<Mismatch>)
      ensures forall m :: m in found <==>
                exists id :: TotalOf(fills, id).Some?
                  && FillFinding(id, TotalOf(fills, id).value, Get(orders, id)) == Some(m)
    {
      hide FillFinding, TotalOf;
      found := [];
      var totals := FillTotals(fills);
      var todo := totals.Keys;
      while todo != {}
        invariant todo <= totals.Keys
        invariant forall m :: m in found ==>
                    exists id :: id in totals && FillFinding(id, totals[id], Get(orders, id)) == Some(m)
        invariant forall id :: id in totals && id !in todo ==>
                    Listed(found, FillFinding(id, totals[id], Get(orders, id)))
        decreases |todo|
      {
        var id :| id in todo;
        todo := todo - {id};
        found := found + AsList(FillFinding(id, totals[id], Get(orders, id)));
      }
      forall id
        ensures TotalOf(fills, id).Some? <==> id in totals
        ensures id in totals ==> TotalOf(fills, id).value == totals[id]
      {
        assert Get(totals, id) == TotalOf(fills, id);
      }
    }

    method ComparePositions(rows: seq<BrokerPosition>) returns (found: seq<Mismatch>)
      ensures forall m :: m in found <==>
                || (exists row :: row in rows && HoldingFinding(row, Get(positions, row.symbol)) == Some(m))
                || (exists s :: s in positions && HoldingOf(rows, s).None? && GoneFinding(s, positions[s]) == Some(m))
    {
      hide HoldingFinding, GoneFinding;
      found := [];
      for i := 0 to |rows|
        invariant forall m :: m in found ==>
                    exists row :: row in rows && HoldingFinding(row, Get(positions, row.symbol)) == Some(m)
        invariant forall j :: 0 <= j < i ==> Listed(found, HoldingFinding(rows[j], Get(positions, rows[j].symbol)))
      {
        found := found + AsList(HoldingFinding(rows[i], Get(positions, rows[i].symbol)));
      }
      forall row | row in rows
        ensures Listed(found, HoldingFinding(row, Get(positions, row.symbol)))
      {
        var j :| 0 <= j < |rows| && rows[j] == row;
      }
      var held := found;
      var todo := positions.Keys;
      while todo != {}
        invariant held <= found && todo <= positions.Keys
        invariant forall m :: m in found ==>
                    || m in held
                    || exists s :: s in positions && HoldingOf(rows, s).None? && GoneFinding(s, positions[s]) == Some(m)
        invariant forall s :: s in positions && s !in todo && HoldingOf(rows, s).None? ==>
                    Listed(found, GoneFinding(s, positions[s]))
        decreases |todo|
      {
        var s :| s in todo;
        todo := todo - {s};
        if HoldingOf(rows, s).None? {
          found := found + AsList(GoneFinding(s, positions[s]));
        }
      }
    }

    method CompareSnapshot(snapshot: Snapshot) returns (found: seq<Mismatch>)
      ensures forall m :: m in found <==> Reports(LedgerOf(Model()), snapshot, m)
      ensures DistinctSymbols(snapshot.positions) ==>
                forall code, symbol ::
                  (exists m :: m in found && m.code == code && m.symbol == symbol) <==>
                    Finds(LedgerOf(Model()), snapshot, code, symbol)
    {
      hide Finds, DistinctSymbols, OrderFinding, AbsenceFinding, FillFinding, HoldingFinding, GoneFinding, RowOf,
        TotalOf, HoldingOf;
      var rows := CompareOpenRows(snapshot.open);
      var own := CompareOwnOrders(snapshot.open);
      var fills := CompareFills(snapshot.fills);
      var holdings := ComparePositions(snapshot.positions);
      found := rows + own + fills + holdings;
      if DistinctSymbols(snapshot.positions) {
        forall code, symbol
          ensures IsReported(LedgerOf(Model()), snapshot, code, symbol) <==>
                    Finds(LedgerOf(Model()), snapshot, code, symbol)
        {
          ReportsMean(LedgerOf(Model()), snapshot, code, symbol);
        }
      }
    }

    // -------------------------------------------------------------- the run

    /** Mismatches of earlier runs that the current comparison no longer finds are resolved. */
    method ResolvePreviousMismatches(current: seq<Mismatch>)
      modifies `findings
      ensures |findings| == |old(findings)|
      ensures forall i :: 0 <= i < |findings| ==>
                findings[i] == Resolved(old(findings)[i], current)
    {
      for i := 0 to |findings|
        invariant |findings| == |old(findings)|
        invariant forall j :: 0 <= j < |findings| ==>
                    findings[j] == if j < i then Resolved(old(findings)[j], current) else old(findings)[j]
      {
        if findings[i].isOpen
           && !exists m :: m in current && m.code == findings[i].code && m.symbol == findings[i].symbol {
          findings := findings[i := findings[i].(isOpen := false)];
        }
      }
    }

    method RaiseMismatches(run: nat, mismatches: seq<Mismatch>)
      modifies `findings
      ensures findings == old(findings) + Raised(run, mismatches)
    {
      for i := 0 to |mismatches|
        invariant findings == old(findings) + Raised(run, mismatches)[..i]
      {
        findings := findings + [Finding(run, mismatches[i].code, mismatches[i].symbol, true)];
      }
    }

    method SetGate(status: GateStatus, reason: string)
      modifies `gate
      ensures gate == Some(NextGate(old(gate), status, reason))
    {
      if gate.None? {
        gate := Some(Gate(status, reason, 1));
      } else {
        gate := Some(Gate(status, reason, gate.value.version + 1));
      }
    }

    /** Compares, brings the findings up to date and settles run and gate; true if nothing differs. */
    method SettleRun(run: nat, snapshot: Snapshot, cleanReason: string) returns (clean: bool)
      requires run < |runs| && forall i :: 0 <= i < |findings| ==> findings[i].run < |runs|
      modifies `findings, `runs, `gate
      ensures clean <==> !exists m :: Reports(LedgerOf(Model()), snapshot, m)
      ensures runs == old(runs)[run := if clean then Succeeded else MismatchFound]
      ensures gate == Some(if clean then NextGate(old(gate), GateReconciling, cleanReason)
                           else NextGate(old(gate), Halted, "RECONCILIATION_MISMATCH"))
      ensures forall i :: 0 <= i < |findings| ==> findings[i].run < |runs|
      ensures forall code, symbol ::
                OpenFinding(findings, code, symbol)
                <==> exists m :: Reports(LedgerOf(Model()), snapshot, m) && m.code == code && m.symbol == symbol
    {
      hide Reports, OpenFinding;
      var mismatches := CompareSnapshot(snapshot);
      ghost var ledgerNow := LedgerOf(Model());
      assert forall m :: m in mismatches <==> Reports(ledgerNow, snapshot, m);
      ResolvePreviousMismatches(mismatches);
      ghost var kept := findings;
      RaiseMismatches(run, mismatches);
      OpenFindingsAreCurrent(old(findings), kept, run, mismatches);
      clean := mismatches == [];
      if clean {
        runs := runs[run := Succeeded];
        SetGate(GateReconciling, cleanReason);
      } else {
        assert Reports(ledgerNow, snapshot, mismatches[0]);
        runs := runs[run := MismatchFound];
        SetGate(Halted, "RECONCILIATION_MISMATCH");
      }
      assert LedgerOf(Model()) == ledgerNow;
    }

    /**
     * One reconciliation. The snapshot is None when the broker could not be
     * asked; a failed run keeps nothing of what it did but its own row and the gate.
     */
    method RunReconciliation(snapshot: Option<Snapshot>, clock: Clock, rank: Rank, cleanReason: string)
      returns (ok: bool)
      requires Valid() && (snapshot.Some? ==> WellFormed(snapshot.value))
      modifies this
      ensures Valid() && |runs| == |old(runs)| + 1 && runs[..|old(runs)|] == old(runs)
      ensures ok <==> snapshot.Some? && !Unprojectable(old(Model()), snapshot.value, clock)
      ensures !ok ==>
                && Model() == old(Model()) && findings == old(findings)
                && runs[|old(runs)|] == Failed
                && gate == Some(NextGate(StartedGate(old(gate)), Degraded, "RECONCILIATION_FAILED"))
      ensures ok ==>
                && Model() == ProjectedAccount(old(Model()), snapshot.value, clock, rank)
                && Recorded(old(ledger), ledger, orders, snapshot.value.fills)
      ensures ok && Halts(LedgerOf(old(Model())), snapshot.value) ==>
                && runs[|old(runs)|] == MismatchFound
                && gate == Some(NextGate(StartedGate(old(gate)), Halted, "RECONCILIATION_MISMATCH"))
      ensures ok && !Halts(LedgerOf(old(Model())), snapshot.value) ==>
                && runs[|old(runs)|] == Succeeded
                && gate == Some(NextGate(StartedGate(old(gate)), GateReconciling, cleanReason))
      ensures ok ==> forall code, symbol ::
                && (OpenFinding(findings, code, symbol) <==>
                      exists m :: Reports(LedgerOf(Model()), snapshot.value, m) && m.code == code && m.symbol == symbol)
                && (OpenFinding(findings, code, symbol) <==> Finds(LedgerOf(Model()), snapshot.value, code, symbol))
    {
      hide Finds, Reports, Halts, Unprojectable, ProjectedAccount, ProjectedLedger, Seen, Record, WellFormed, Recorded,
        Attributed, Balanced, OpenFinding, NoDuplicates;
      var run := |runs|;
      runs := runs + [Running];
      SetGate(GateReconciling, "BOOTSTRAP_RECONCILIATION_RUNNING");
      ok := false;
      if snapshot.Some? {
        var before, recorded, times, holdings := orders, ledger, filledAt, positions;
        ok := ApplyBrokerAccountProjection(snapshot.value, clock, rank);
        if ok {
          LedgerProjected(old(Model()), snapshot.value, clock, rank);
          HaltsExactly(LedgerOf(old(Model())), snapshot.value, Seen(old(Model()), snapshot.value, clock, rank));
          var clean := SettleRun(run, snapshot.value, cleanReason);
          AllReportsMean(LedgerOf(Model()), snapshot.value);
          return;
        }
        orders, ledger, filledAt, positions := before, recorded, times, holdings;
      }
      runs := runs[run := Failed];
      SetGate(Degraded, "RECONCILIATION_FAILED");
    }
  }

  function Counted(occurrences: map<BrokerFill, nat>, f: BrokerFill): nat {
    if f in occurrences then occurrences[f] else 0
  }

  /** The orders after the first n open rows. */
  ghost predicate AreOpened(orders: Orders, was: Orders, open: seq<OpenRow>, n: nat)
    requires n <= |open|
  {
    forall id :: Get(orders, id) == Opened(Get(was, id), RowOf(open[..n], id))
  }

  lemma NothingOpened(orders: Orders, open: seq<OpenRow>)
    ensures AreOpened(orders, orders, open, 0) && FlushedRows(orders, open[..0]) == 0
  {
  }

  lemma OpenOneMore(was: Orders, orders: Orders, open: seq<OpenRow>, n: nat)
    requires n < |open| && DistinctIds(open) && AreOpened(orders, was, open, n)
    ensures var row := open[n];
            && AreOpened(orders[row.id := if row.id in orders then ApplyOpenRow(orders[row.id], row) else Import(row)],
                         was, open, n + 1)
            && FlushedRows(was, open[..n + 1]) == if row.id !in orders then n + 1 else FlushedRows(was, open[..n])
  {
    hide ApplyOpenRow, Import;
    var row := open[n];
    assert open[..n + 1][..n] == open[..n];
    assert RowOf(open[..n], row.id).None?;
    assert Get(orders, row.id) == Opened(Get(was, row.id), None);
    assert forall id :: RowOf(open[..n + 1], id) == if id == row.id then Some(row) else RowOf(open[..n], id);
  }

  lemma OpenedAtLast(was: Orders, orders: Orders, open: seq<OpenRow>, n: nat)
    requires n <= |open| && AreOpened(orders, was, open, n)
    ensures orders == OpenedOrders(was, open[..n])
    ensures forall id :: Get(orders, id) == Opened(Get(was, id), RowOf(open[..n], id))
  {
    hide Opened, RowOf, OpenedOrders;
    SameGets(orders, OpenedOrders(was, open[..n]));
  }

  /** The counters are right for every fill that is counted at all. */
  ghost predicate CountsEligible(occurrences: map<BrokerFill, nat>, orders: Orders, fills: seq<BrokerFill>, n: nat)
    requires n <= |fills|
  {
    forall f :: Eligible(orders, fills, f) ==> Counted(occurrences, f) == Occurrences(fills[..n], f)
  }

  lemma CountOneMore(occurrences: map<BrokerFill, nat>, orders: Orders, fills: seq<BrokerFill>, n: nat)
    requires n < |fills| && CountsEligible(occurrences, orders, fills, n)
    ensures Eligible(orders, fills, fills[n]) ==>
              && KeyAt(fills, n) == FillKey(fills[n], Counted(occurrences, fills[n]))
              && CountsEligible(occurrences[fills[n] := Counted(occurrences, fills[n]) + 1], orders, fills, n + 1)
    ensures !Eligible(orders, fills, fills[n]) ==> CountsEligible(occurrences, orders, fills, n + 1)
  {
    hide Eligible, Occurrences;
    OneMoreFill(fills, n);
  }

  lemma NothingRecordedYet(ledger: seq<FillKey>, filledAt: map<FillKey, int>, orders: Orders, fills: seq<BrokerFill>,
                           date: int,
                           clock: Clock)
    ensures NewFills(ledger, orders, fills, 0) == []
    ensures Timed(filledAt, NewFills(ledger, orders, fills, 0), date, clock) == filledAt
    ensures CountsEligible(map[], orders, fills, 0)
  {
  }

  /** A fill's row is new exactly if the ledger did not hold it before the call, and then it is added with its time. */
  lemma RecordOneMore(ledger: seq<FillKey>, filledAt: map<FillKey, int>, orders: Orders, fills: seq<BrokerFill>, n: nat,
                      date: int,
                      clock: Clock)
    requires n < |fills|
    ensures var news, key := NewFills(ledger, orders, fills, n), KeyAt(fills, n);
            var isNew := IsNew(ledger, orders, fills, n);
            && isNew == (Eligible(orders, fills, fills[n]) && key !in ledger + news)
            && NewFills(ledger, orders, fills, n + 1) == (if isNew then news + [key] else news)
            && Timed(filledAt, NewFills(ledger, orders, fills, n + 1), date, clock)
               == (if isNew then Timed(filledAt, news, date, clock)[key := FillTime(date, clock, key)]
                   else Timed(filledAt, news, date, clock))
  {
    hide Eligible, Occurrences, FillTime, Timed;
    NewFillsAre(ledger, orders, fills, n);
    TimeOneMore(filledAt, NewFills(ledger, orders, fills, n), KeyAt(fills, n), date, clock);
  }

  lemma TimeOneMore(filledAt: map<FillKey, int>, news: seq<FillKey>, key: FillKey, date: int, clock: Clock)
    ensures Timed(filledAt, news + [key], date, clock) ==
              Timed(filledAt, news, date, clock)[key := FillTime(date, clock, key)]
  {
    hide FillTime;
  }

  lemma RecordedHasNoDuplicates(before: seq<FillKey>, after: seq<FillKey>, orders: Orders, fills: seq<BrokerFill>)
    requires Recorded(before, after, orders, fills)
    ensures NoDuplicates(after)
  {
  }

  // ---------------------------------------------------------------- positions, row by row

  /** A position after the first n rows were applied, before anything is closed. */
  function HoldingApplied(was: PositionTable, rows: seq<BrokerPosition>, n: nat, histories: Histories,
                          s: Symbol): Option<Position>
    requires n <= |rows|
  {
    if HoldingOf(rows[..n], s).None? then Get(was, s)
    else ProjectedPosition(Get(was, s), HoldingOf(rows[..n], s), History(histories, s))
  }

  lemma NothingApplied(was: PositionTable, rows: seq<BrokerPosition>, histories: Histories)
    ensures !InsertsPosition(was, rows[..0])
    ensures forall s :: HoldingApplied(was, rows, 0, histories, s) == Get(was, s)
  {
  }

  lemma ApplyOneMore(was: PositionTable, rows: seq<BrokerPosition>, i: nat, histories: Histories)
    requires DistinctSymbols(rows) && i < |rows|
    ensures HoldingApplied(was, rows, i, histories, rows[i].symbol) == Get(was, rows[i].symbol)
    ensures forall s :: HoldingApplied(was, rows, i + 1, histories, s) ==
              if s == rows[i].symbol then ProjectedPosition(Get(was, s), Some(rows[i]), History(histories, s))
              else HoldingApplied(was, rows, i, histories, s)
  {
    hide ProjectedPosition, History;
    assert rows[..i + 1][..i] == rows[..i];
    assert HoldingOf(rows[..i], rows[i].symbol).None?;
  }

  lemma InsertsOneMore(positions: PositionTable, rows: seq<BrokerPosition>, i: nat)
    requires i < |rows|
    ensures InsertsPosition(positions, rows[..i + 1]) <==>
              InsertsPosition(positions, rows[..i]) || rows[i].symbol !in positions
  {
    if InsertsPosition(positions, rows[..i]) {
      var j :| 0 <= j < i && rows[..i][j].symbol !in positions;
      assert rows[..i + 1][j].symbol !in positions;
    }
    if rows[i].symbol !in positions {
      assert rows[..i + 1][i].symbol !in positions;
    }
  }

  lemma {:induction false} FlushedForRow(positions: PositionTable, rows: seq<BrokerPosition>, i: nat)
    requires DistinctSymbols(rows) && i < |rows|
    ensures FlushedFor(positions, rows, rows[i].symbol) == InsertsPosition(positions, rows[..i])
  {
    var n := |rows| - 1;
    if i < n {
      FlushedForRow(positions, rows[..n], i);
      assert rows[..n][..i] == rows[..i];
    }
  }

  lemma SeenByRow(positions: PositionTable, rows: seq<BrokerPosition>, before: Stored, after: Stored, rank: Rank,
                  i: nat)
    requires DistinctSymbols(rows) && i < |rows|
    ensures History(SeenHistories(positions, rows, before, after, rank), rows[i].symbol)
         == OwnTrades(if InsertsPosition(positions, rows[..i]) then after else before, rank, rows[i].symbol)
  {
    hide OwnTrades, InsertsPosition;
    FlushedForRow(positions, rows, i);
    assert rows[i] in rows;
  }

  lemma LedgerProjected(a: Account, snapshot: Snapshot, clock: Clock, rank: Rank)
    ensures LedgerOf(ProjectedAccount(a, snapshot, clock, rank)) ==
              ProjectedLedger(LedgerOf(a), snapshot, Seen(a, snapshot, clock, rank))
  {
  }

  // ---------------------------------------------------------------- fills and orders

  lemma EligibleUnlessOverfilled(orders: Orders, fills: seq<BrokerFill>, totals: map<BrokerId, int>,
                                 overfilled: set<BrokerId>, f: BrokerFill)
    requires forall id :: Get(totals, id) == TotalOf(fills, id)
    requires overfilled == set id | id in totals && id in orders && totals[id] > orders[id].requested
    requires f in fills
    ensures Eligible(orders, fills, f) <==> f.id in orders && f.id !in overfilled
  {
    assert Get(totals, f.id) == TotalOf(fills, f.id);
  }

  /** The passes after recording leave every order's requested quantity alone, so they would record the same fills. */
  lemma SameRecordingLater(was: Orders, seen: Orders, ledger: seq<FillKey>, snapshot: Snapshot, clock: Clock)
    requires forall id :: Get(seen, id) == Opened(Get(was, id), RowOf(snapshot.open, id))
    ensures var after := ProjectedOrders(was, snapshot.open, snapshot.fills);
            && Record(ledger, seen, snapshot.fills) == Record(ledger, after, snapshot.fills)
            && NewFills(ledger, seen, snapshot.fills, |snapshot.fills|) ==
                 NewFills(ledger, after, snapshot.fills, |snapshot.fills|)
            && Unreadable(ledger, seen, snapshot.fills, clock) == Unreadable(ledger, after, snapshot.fills, clock)
  {
    hide Import, ApplyOpenRow, RowOf, TotalOf, ProjectedOrders, Projected, Opened;
    var after := ProjectedOrders(was, snapshot.open, snapshot.fills);
    forall f: BrokerFill
      ensures Eligible(seen, snapshot.fills, f) <==> Eligible(after, snapshot.fills, f)
    {
      assert Get(seen, f.id) == Opened(Get(was, f.id), RowOf(snapshot.open, f.id));
      OpenedRequestedStays(Get(was, f.id), RowOf(snapshot.open, f.id), TotalOf(snapshot.fills, f.id));
      assert Get(after, f.id) == Projected(Get(was, f.id), RowOf(snapshot.open, f.id), TotalOf(snapshot.fills, f.id));
    }
    SameNewFills(ledger, seen, after, snapshot.fills, |snapshot.fills|);
  }

  lemma {:induction false} SameNewFills(ledger: seq<FillKey>, a: Orders, b: Orders, fills: seq<BrokerFill>, n: nat)
    requires n <= |fills| && forall f :: Eligible(a, fills, f) <==> Eligible(b, fills, f)
    ensures NewFills(ledger, a, fills, n) == NewFills(ledger, b, fills, n)
    ensures forall i :: 0 <= i < n ==> IsNew(ledger, a, fills, i) == IsNew(ledger, b, fills, i)
  {
    hide Eligible, Occurrences;
    if n > 0 {
      SameNewFills(ledger, a, b, fills, n - 1);
    }
  }

  lemma OpenedRequestedStays(order: Option<Order>, row: Option<OpenRow>, total: Option<int>)
    ensures var seen, after := Opened(order, row), Projected(order, row, total);
            seen.Some? == after.Some? && (seen.Some? ==> seen.value.requested == after.value.requested)
  {
  }

  lemma ProjectionKeepsTables(ledger: Ledger, snapshot: Snapshot, histories: Histories)
    requires WellFormed(snapshot) && BalancedOrders(ledger.orders)
    requires forall row :: row in snapshot.open ==> ValidOpenRow(row)
    requires forall s :: s in ledger.positions ==> Attributed(ledger.positions[s])
    ensures var after := ProjectedLedger(ledger, snapshot, histories);
            && BalancedOrders(after.orders)
            && forall s :: s in after.positions ==> Attributed(after.positions[s])
  {
    hide Projected, RowOf, TotalOf, ProjectedPositions, ProjectedPosition, ProjectedOrders, Balanced, Attributed,
      ValidOpenRow, ValidHolding, HoldingOf, DistinctIds, DistinctSymbols;
    var after := ProjectedLedger(ledger, snapshot, histories);
    forall id | id in after.orders
      ensures Balanced(after.orders[id])
    {
      assert Get(after.orders, id)
          == Projected(Get(ledger.orders, id), RowOf(snapshot.open, id), TotalOf(snapshot.fills, id));
      ProjectionConserves(Get(ledger.orders, id), RowOf(snapshot.open, id), TotalOf(snapshot.fills, id));
    }
    forall s | s in after.positions
      ensures Attributed(after.positions[s])
    {
      assert Get(after.positions, s)
          == ProjectedPosition(Get(ledger.positions, s), HoldingOf(snapshot.positions, s), History(histories, s));
      ProjectionKeepsAttribution(Get(ledger.positions, s), HoldingOf(snapshot.positions, s), History(histories, s));
    }
  }

  /** The empty list or the one finding. */
  function AsList(finding: Option<Mismatch>): (list: seq<Mismatch>)
    ensures forall m :: m in list <==> finding == Some(m)
  {
    if finding.Some? then [finding.value] else []
  }

  predicate Listed(found: seq<Mismatch>, finding: Option<Mismatch>) {
    finding.Some? ==> finding.value in found
  }

  function NextGate(gate: Option<Gate>, status: GateStatus, reason: string): Gate {
    Gate(status, reason, if gate.Some? then gate.value.version + 1 else 1)
  }

  function StartedGate(gate: Option<Gate>): Option<Gate> {
    Some(NextGate(gate, GateReconciling, "BOOTSTRAP_RECONCILIATION_RUNNING"))
  }

  function Resolved(f: Finding, current: seq<Mismatch>): Finding {
    f.(isOpen := f.isOpen && exists m :: m in current && m.code == f.code && m.symbol == f.symbol)
  }

  function Raised(run: nat, mismatches: seq<Mismatch>): seq<Finding> {
    seq(|mismatches|, i requires 0 <= i < |mismatches| => Finding(run, mismatches[i].code, mismatches[i].symbol, true))
  }

  /** Some recorded mismatch of this kind about this symbol is still open. */
  ghost predicate OpenFinding(findings: seq<Finding>, code: Code, symbol: Symbol) {
    exists f :: f in findings && f.isOpen && f.code == code && f.symbol == symbol
  }

  /** What is open after resolving the old findings and raising the new ones is what the comparison found. */
  lemma OpenFindingsAreCurrent(before: seq<Finding>, kept: seq<Finding>, run: nat, current: seq<Mismatch>)
    requires |kept| == |before| && forall i :: 0 <= i < |kept| ==> kept[i] == Resolved(before[i], current)
    ensures forall code, symbol ::
              OpenFinding(kept + Raised(run, current), code, symbol) <==>
                exists m :: m in current && m.code == code && m.symbol == symbol
  {
    var after := kept + Raised(run, current);
    forall m | m in current
      ensures OpenFinding(after, m.code, m.symbol)
    {
      var i :| 0 <= i < |current| && current[i] == m;
      assert after[|kept| + i] == Finding(run, m.code, m.symbol, true);
    }
  }
}
