/**
 * The desk and the broker together. Orders of the desk are sent to the broker,
 * expired buys are cancelled, and account snapshots are projected over order
 * rows and positions alike: here the outside of the desk is spelled out.
 */
module BrokerDesk {
  import opened Common
  import opened BrokerOrders
  import opened FillLedger
  import opened OwnFills
  import opened Positions
  import opened Reconciliation
  import opened AccountProjection
  import opened BrokerLaws
  import opened OrderCreation
  import opened Guards
  import opened StopTriggers
  import opened OrderDesk

  /** The tables. An order row has a broker number once the broker accepted or reported it; ids says which. */
  datatype Tables = Tables(desk: Desk, ids: map<Id, BrokerId>, orders: Orders, fills: seq<FillKey>,
                           filledAt: map<FillKey, int>)

  const EMPTY_TABLES := Tables(OrderDesk.EMPTY, map[], map[], [], map[])

  /** An order row that the broker has given no number, as a comparison sees it. Its market is left out. */
  function Unnumbered(row: OrderRow): Order {
    Order(Own(row), row.symbol, "", row.side, if row.limitPrice.Some? then Limit else Market, row.limitPrice,
          row.quantity, 0, 0, row.remaining, row.status, None, 1)
  }

  /** The order rows without a number, in order. */
  function UnnumberedRows(rows: seq<OrderRow>, ids: map<Id, BrokerId>): (unsent: seq<Order>)
    ensures forall o :: o in unsent <==> exists i :: 0 <= i < |rows| && i !in ids && o == Unnumbered(rows[i])
  {
    if rows == [] then []
    else
      var n := |rows| - 1;
      UnnumberedRows(rows[..n], ids) + if n in ids then [] else [Unnumbered(rows[n])]
  }

  /** What projection and comparison see of the tables. */
  function AccountOf(t: Tables): Account {
    Account(t.orders, UnnumberedRows(t.desk.orders, t.ids), t.desk.positions, t.fills, t.filledAt)
  }

  /** What the broker answered to a request to send or to cancel an order, if anything. */
  datatype Answer = Accepted(broker: BrokerId, market: string, nextActionAt: Option<int>) | Declined | Lost

  /** A request is committed before it is sent, so the calls of others may fall between its two halves. */
  datatype Call =
    | DeskCall(op: Op)
    | TestOrder(key: Key, text: string, symbol: Symbol, limitPrice: Option<real>, ready: bool)
    | BeginSend(i: Id, ready: bool)
    | FinishSend(i: Id, leased: bool, answer: Answer)
    | BeginCancel(i: Id, ready: bool)
    | FinishCancel(i: Id, leased: bool, answer: Answer)
    | Project(snapshot: Snapshot)

  // ---------------------------------------------------------------- sending and cancelling

  function NewTestOrder(key: Key, text: string, symbol: Symbol, limitPrice: Option<real>): OrderRow {
    OrderRow(key, ByOthers(text), symbol, Buy, limitPrice, 1, 1, Created)
  }

  predicate InStatus(t: Tables, i: Id, status: Status) {
    i < |t.desk.orders| && t.desk.orders[i].status == status
  }

  /** A requested cancel ends the wait for fills. */
  function Transitioned(order: Order, status: Status): Order {
    order.(status := status, version := order.version + 1,
           nextActionAt := if status == CancelPending then None else order.nextActionAt)
  }

  /** The row after a status change; the same row as the projection knows it changes with it. */
  function Moved(t: Tables, i: Id, status: Status): Tables
    requires i < |t.desk.orders|
  {
    var rows := t.desk.orders[i := t.desk.orders[i].(status := status)];
    var moved := t.(desk := t.desk.(orders := rows));
    if i in t.ids && t.ids[i] in t.orders then
      var order := t.orders[t.ids[i]];
      moved.(orders := t.orders[t.ids[i] := Transitioned(order, status)])
    else moved
  }

  /** The row as the projection knows it from the moment the broker accepted it. */
  function AcceptedOrder(row: OrderRow, market: string, nextActionAt: Option<int>): Order {
    Order(true, row.symbol, market, row.side, if row.limitPrice.Some? then Limit else Market, row.limitPrice,
          row.quantity, 0, 0, row.remaining, Acknowledged, nextActionAt, 4)
  }

  /** No two rows of the table may have the same broker number. */
  function Sent(t: Tables, i: Id, answer: Answer): Tables
    requires i < |t.desk.orders|
  {
    match answer
    case Declined => Moved(t, i, Rejected)
    case Lost => Moved(t, i, Unknown)
    case Accepted(broker, market, nextActionAt) =>
      if broker in t.orders then t
      else
        var moved := Moved(t, i, Acknowledged);
        moved.(ids := t.ids[i := broker],
               orders := t.orders[broker := AcceptedOrder(t.desk.orders[i], market, nextActionAt)])
  }

  predicate Cancellable(row: OrderRow) {
    row.side == Buy && (row.status == Acknowledged || row.status == Open || row.status == PartiallyFilled)
    && row.remaining > 0
  }

  function CancelAnswered(t: Tables, i: Id, answer: Answer): Tables
    requires i < |t.desk.orders|
  {
    match answer
    case Accepted(_, _, _) => t
    case Declined => Moved(t, i, Reconciling)
    case Lost => Moved(t, i, Unknown)
  }

  function SendBegun(t: Tables, i: Id, ready: bool): Tables {
    if ready && InStatus(t, i, Created) then Moved(t, i, Submitting) else t
  }

  function SendFinished(t: Tables, i: Id, leased: bool, answer: Answer): Tables {
    if leased && InStatus(t, i, Submitting) then Sent(t, i, answer) else t
  }

  function CancelBegun(t: Tables, i: Id, ready: bool): Tables {
    if !ready || i >= |t.desk.orders| || !Cancellable(t.desk.orders[i]) then t
    else Moved(t, i, if i in t.ids then CancelPending else Reconciling)
  }

  function CancelFinished(t: Tables, i: Id, leased: bool, answer: Answer): Tables {
    if leased && InStatus(t, i, CancelPending) then CancelAnswered(t, i, answer) else t
  }

  // ---------------------------------------------------------------- projecting

  /** The reported open orders that have no row. */
  function Imports(orders: Orders, open: seq<OpenRow>): (rows: seq<OpenRow>)
    ensures forall r :: r in rows <==> r in open && r.id !in orders
  {
    if open == [] then []
    else
      var last := open[|open| - 1];
      Imports(orders, open[..|open| - 1]) + if last.id in orders then [] else [last]
  }

  function ImportKey(id: BrokerId): Key {
    FreeKey("broker-import:MOCK:KIWOOM_MOCK_PRIMARY:" + id)
  }

  function ImportedRow(row: OpenRow): OrderRow {
    OrderRow(ImportKey(row.id), ByOthers(row.id), row.symbol, row.side, row.limitPrice, row.requested, row.remaining,
             OpenStatus(row))
  }

  /** The row with everything the projection may write. */
  function Reflected(row: OrderRow, order: Order): OrderRow {
    row.(symbol := order.symbol, side := order.side, limitPrice := order.limitPrice, quantity := order.requested,
         remaining := order.remaining, status := order.status)
  }

  function ReflectedAt(t: Tables, after: Orders, i: nat): OrderRow
    requires i < |t.desk.orders|
  {
    if i in t.ids && t.ids[i] in after then Reflected(t.desk.orders[i], after[t.ids[i]]) else t.desk.orders[i]
  }

  function ReflectedRows(t: Tables, after: Orders, imports: seq<OpenRow>): (rows: seq<OrderRow>)
    ensures |rows| == |t.desk.orders| + |imports|
    ensures forall i :: 0 <= i < |rows| ==>
              rows[i] == if i < |t.desk.orders| then ReflectedAt(t, after, i)
                         else ImportedRow(imports[i - |t.desk.orders|])
  {
    seq(|t.desk.orders|, i requires 0 <= i < |t.desk.orders| => ReflectedAt(t, after, i))
    + seq(|imports|, k requires 0 <= k < |imports| => ImportedRow(imports[k]))
  }

  /** The numbers of rows n, n + 1 and so on, for the imported rows. */
  function ProjectedIds(ids: map<Id, BrokerId>, n: nat, imports: seq<OpenRow>): (all: map<Id, BrokerId>)
    ensures forall i :: i in all <==> i in ids || n <= i < n + |imports|
    ensures forall i :: i in all ==> all[i] == if n <= i < n + |imports| then imports[i - n].id else ids[i]
  {
    if imports == [] then ids
    else
      var last := |imports| - 1;
      ProjectedIds(ids, n, imports[..last])[n + last := imports[last].id]
  }

  /** The tables over a projected account: every row with a number follows its order, and each import becomes a row. */
  function Applied(t: Tables, snapshot: Snapshot, after: Account): Tables {
    var imports := Imports(t.orders, snapshot.open);
    Tables(t.desk.(orders := ReflectedRows(t, after.orders, imports), positions := after.positions),
           ProjectedIds(t.ids, |t.desk.orders|, imports), after.orders, after.fills, after.filledAt)
  }

  /** Neither a bad row nor an import whose key is taken stands in the way. */
  ghost predicate Projectable(t: Tables, snapshot: Snapshot, clock: Clock) {
    && WellFormed(snapshot) && !Unprojectable(AccountOf(t), snapshot, clock)
    && forall r :: r in Imports(t.orders, snapshot.open) ==> Find(t.desk.orders, ImportKey(r.id)).None?
  }

  /** All of a projection or nothing. */
  ghost function ProjectedTables(t: Tables, snapshot: Snapshot, clock: Clock, rank: Rank): Tables {
    if Projectable(t, snapshot, clock) then Applied(t, snapshot, ProjectedAccount(AccountOf(t), snapshot, clock, rank))
    else t
  }

  // ---------------------------------------------------------------- runs

  ghost function Apply(t: Tables, call: Call, clock: Clock, rank: Rank): Tables {
    match call
    case DeskCall(op) => if op.Outside? then t else t.(desk := OrderDesk.Step(t.desk, op))
    case TestOrder(key, text, symbol, limitPrice, ready) =>
      if !ready || Find(t.desk.orders, key).Some? || HasActive(t.desk.orders, symbol) then t
      else t.(desk := t.desk.(orders := t.desk.orders + [NewTestOrder(key, text, symbol, limitPrice)]))
    case BeginSend(i, ready) => SendBegun(t, i, ready)
    case FinishSend(i, leased, answer) => SendFinished(t, i, leased, answer)
    case BeginCancel(i, ready) => CancelBegun(t, i, ready)
    case FinishCancel(i, leased, answer) => CancelFinished(t, i, leased, answer)
    case Project(snapshot) => ProjectedTables(t, snapshot, clock, rank)
  }

  /** The tables after any number of calls, starting without any row. */
  ghost function Reached(calls: seq<Call>, clock: Clock, rank: Rank): Tables {
    if calls == [] then EMPTY_TABLES
    else Apply(Reached(calls[..|calls| - 1], clock, rank), calls[|calls| - 1], clock, rank)
  }

  // ---------------------------------------------------------------- one table, seen twice

  predicate Mirrors(row: OrderRow, order: Order) {
    && row.symbol == order.symbol && row.side == order.side && row.limitPrice == order.limitPrice
    && row.quantity == order.requested && row.remaining == order.remaining && row.status == order.status
    && (Own(row) ==> order.own)
  }

  /** Only buys are ever cancelled, so a sale that the broker knows ends by being filled. */
  predicate NeverCancelled(order: Order) {
    order.side == Sell ==>
      && (order.status == Acknowledged || order.status == Open || order.status == PartiallyFilled
          || order.status == Filled
          || order.status == Reconciling)
      && (order.status == Filled ==> order.filled == order.requested)
  }

  predicate OrderInv(order: Order) {
    NeverCancelled(order) && order.status != Created && order.status != Submitting
  }

  predicate Unsent(s: Status) {
    s == Created || s == Submitting || s == Rejected || s == Unknown
  }

  predicate RowInv(t: Tables, i: Id) {
    && i < |t.desk.orders|
    && if i in t.ids then t.ids[i] in t.orders && Mirrors(t.desk.orders[i], t.orders[t.ids[i]])
       else Unsent(t.desk.orders[i].status)
  }

  predicate HasRow(ids: map<Id, BrokerId>, b: BrokerId) {
    exists i :: i in ids && ids[i] == b
  }

  predicate OneRowEach(ids: map<Id, BrokerId>) {
    forall i, j :: i in ids && j in ids && ids[i] == ids[j] ==> i == j
  }

  /** Every order of the broker is one row of the table, and neither says anything else than the other. */
  ghost predicate Joined(t: Tables) {
    && (forall i: Id :: i in t.ids || i < |t.desk.orders| ==> RowInv(t, i))
    && OneRowEach(t.ids)
    && (forall b :: b in t.orders ==> HasRow(t.ids, b) && OrderInv(t.orders[b]))
  }

  lemma MovedJoins(t: Tables, i: Id, status: Status)
    requires Joined(t) && i < |t.desk.orders|
    requires if i in t.ids then t.desk.orders[i].side == Buy && status != Created && status != Submitting
             else Unsent(status)
    ensures Joined(Moved(t, i, status))
  {
    hide HasRow, OneRowEach;
    var moved := Moved(t, i, status);
    assert RowInv(t, i);
    forall j: Id | j in moved.ids || j < |moved.desk.orders|
      ensures RowInv(moved, j)
    {
      assert RowInv(t, j);
      MovedElsewhere(t, i, status, j);
    }
  }

  lemma MovedElsewhere(t: Tables, i: Id, status: Status, j: Id)
    requires OneRowEach(t.ids) && i < |t.desk.orders| && RowInv(t, i) && RowInv(t, j)
    ensures i != j ==> RowInv(Moved(t, i, status), j)
  {
  }

  lemma SentJoins(t: Tables, i: Id, answer: Answer)
    requires Joined(t) && InStatus(t, i, Submitting)
    ensures Joined(Sent(t, i, answer))
  {
    assert RowInv(t, i);
    assert i !in t.ids;
    if answer.Accepted? {
      if answer.broker !in t.orders {
        AcceptedJoins(t, i, answer);
      }
    } else {
      MovedJoins(t, i, if answer.Declined? then Rejected else Unknown);
    }
  }

  lemma AcceptedJoins(t: Tables, i: Id, answer: Answer)
    requires Joined(t) && InStatus(t, i, Submitting) && i !in t.ids && answer.Accepted? && answer.broker !in t.orders
    ensures Joined(Sent(t, i, answer))
  {
    hide HasRow, OneRowEach, RowInv;
    var sent := Sent(t, i, answer);
    forall j: Id | j in sent.ids || j < |sent.desk.orders|
      ensures RowInv(sent, j)
    {
      AcceptedRow(t, i, answer, j);
    }
    forall j | j in t.ids
      ensures t.ids[j] != answer.broker
    {
      AcceptedRow(t, i, answer, j);
    }
    OneMoreNumber(t.ids, i, answer.broker);
    assert sent.ids == t.ids[i := answer.broker];
    forall b | b in sent.orders
      ensures HasRow(sent.ids, b) && OrderInv(sent.orders[b])
    {
      StillHasRow(t.ids, i, answer.broker, b);
    }
  }

  lemma AcceptedRow(t: Tables, i: Id, answer: Answer, j: Id)
    requires InStatus(t, i, Submitting) && i !in t.ids && answer.Accepted? && answer.broker !in t.orders
    requires j == i || RowInv(t, j)
    ensures RowInv(Sent(t, i, answer), j)
    ensures j in t.ids ==> t.ids[j] != answer.broker
  {
  }

  lemma OneMoreNumber(ids: map<Id, BrokerId>, i: Id, b: BrokerId)
    requires OneRowEach(ids) && i !in ids && forall j :: j in ids ==> ids[j] != b
    ensures OneRowEach(ids[i := b])
  {
  }

  lemma StillHasRow(ids: map<Id, BrokerId>, i: Id, b: BrokerId, c: BrokerId)
    requires i !in ids && (c == b || HasRow(ids, c))
    ensures HasRow(ids[i := b], c)
  {
    var more := ids[i := b];
    if c == b {
      assert i in more && more[i] == c;
    } else {
      var j :| j in ids && ids[j] == c;
      assert j in more && more[j] == c;
    }
  }

  // ---------------------------------------------------------------- a projection keeps the two views together

  lemma ProjectedOrderInv(order: Option<Order>, row: Option<OpenRow>, total: Option<int>)
    requires order.Some? ==> OrderInv(order.value)
    ensures var after := Projected(order, row, total);
            after.Some? ==> OrderInv(after.value) && (order.Some? ==> after.value.own == order.value.own)
  {
  }

  lemma {:induction false} ImportsAreDistinct(orders: Orders, open: seq<OpenRow>)
    requires DistinctIds(open)
    ensures DistinctIds(Imports(orders, open))
  {
    if open != [] {
      ImportsAreDistinct(orders, open[..|open| - 1]);
    }
  }

  lemma ReflectedRowInv(row: OrderRow, order: Order, after: Order)
    requires Mirrors(row, order) && after.own == order.own
    ensures Mirrors(Reflected(row, after), after)
  {
  }

  lemma AppliedKnownRow(t: Tables, snapshot: Snapshot, after: Account, i: Id)
    requires after.orders == ProjectedOrders(t.orders, snapshot.open, snapshot.fills)
    requires RowInv(t, i) && (i in t.ids ==> OrderInv(t.orders[t.ids[i]]))
    ensures RowInv(Applied(t, snapshot, after), i)
  {
    hide Projected, OrderInv, ProjectedOrders, RowOf, TotalOf, Mirrors, Reflected;
    var open, fills := snapshot.open, snapshot.fills;
    if i in t.ids {
      var b := t.ids[i];
      ProjectedOrderInv(Some(t.orders[b]), RowOf(open, b), TotalOf(fills, b));
      assert Get(after.orders, b) == Projected(Get(t.orders, b), RowOf(open, b), TotalOf(fills, b));
      ProjectedStays(t.orders, open, fills, b);
      ReflectedRowInv(t.desk.orders[i], t.orders[b], after.orders[b]);
    }
  }

  lemma ProjectedStays(orders: Orders, open: seq<OpenRow>, fills: seq<BrokerFill>, b: BrokerId)
    ensures b in orders ==> b in ProjectedOrders(orders, open, fills)
  {
    hide Projected;
  }

  lemma AppliedImport(t: Tables, snapshot: Snapshot, after: Account, i: Id)
    requires WellFormed(snapshot) && after.orders == ProjectedOrders(t.orders, snapshot.open, snapshot.fills)
    requires i !in t.ids && |t.desk.orders| <= i < |t.desk.orders| + |Imports(t.orders, snapshot.open)|
    ensures RowInv(Applied(t, snapshot, after), i)
  {
    hide ProjectedOrders, Applied, Mirrors, WellFormed, ImportedRow, Import, DistinctIds;
    WellFormedIds(snapshot);
    var row := Imports(t.orders, snapshot.open)[i - |t.desk.orders|];
    AppliedImportAt(t, snapshot, after, i);
    ImportedOrder(t.orders, snapshot.open, snapshot.fills, row);
    ImportMirrors(row);
  }

  lemma AppliedImportAt(t: Tables, snapshot: Snapshot, after: Account, i: Id)
    requires i !in t.ids && |t.desk.orders| <= i < |t.desk.orders| + |Imports(t.orders, snapshot.open)|
    ensures var next := Applied(t, snapshot, after);
            var row := Imports(t.orders, snapshot.open)[i - |t.desk.orders|];
            && i < |next.desk.orders| && next.desk.orders[i] == ImportedRow(row)
            && i in next.ids && next.ids[i] == row.id && next.orders == after.orders
            && row in snapshot.open && row.id !in t.orders
  {
    hide ReflectedAt, ReflectedRows, ProjectedIds, Imports, ImportedRow;
    assert Imports(t.orders, snapshot.open)[i - |t.desk.orders|] in Imports(t.orders, snapshot.open);
  }

  lemma ImportMirrors(row: OpenRow)
    ensures Mirrors(ImportedRow(row), Import(row))
  {
  }

  lemma WellFormedIds(snapshot: Snapshot)
    requires WellFormed(snapshot)
    ensures DistinctIds(snapshot.open)
  {
  }

  lemma ImportedOrder(orders: Orders, open: seq<OpenRow>, fills: seq<BrokerFill>, row: OpenRow)
    requires DistinctIds(open) && row in open && row.id !in orders
    ensures Get(ProjectedOrders(orders, open, fills), row.id) == Some(Import(row))
  {
    hide FillsProjected, CancelProjected;
    assert RowOf(open, row.id) == Some(row);
  }

  lemma AppliedNumbers(t: Tables, snapshot: Snapshot, after: Account)
    requires Joined(t) && WellFormed(snapshot)
    ensures OneRowEach(Applied(t, snapshot, after).ids)
  {
    hide ReflectedRows, HasRow, OrderInv, Mirrors, ImportKey;
    var imports := Imports(t.orders, snapshot.open);
    var ids := Applied(t, snapshot, after).ids;
    ImportsAreDistinct(t.orders, snapshot.open);
    forall i, j | i in ids && j in ids && ids[i] == ids[j]
      ensures i == j
    {
      assert i in t.ids ==> RowInv(t, i);
      assert j in t.ids ==> RowInv(t, j);
      assert forall k :: 0 <= k < |imports| ==> imports[k] in imports;
    }
  }

  lemma AppliedHasRow(t: Tables, snapshot: Snapshot, after: Account, b: BrokerId)
    requires Joined(t) && after.orders == ProjectedOrders(t.orders, snapshot.open, snapshot.fills)
    requires b in after.orders
    ensures HasRow(Applied(t, snapshot, after).ids, b)
  {
    hide Projected, Applied, OrderInv, RowInv, TotalOf, ProjectedOrders, Imports, RowOf;
    var ids := Applied(t, snapshot, after).ids;
    if b in t.orders {
      var i :| i in t.ids && t.ids[i] == b;
      assert RowInv(t, i);
      RowInRange(t, i);
      NumberStays(t, snapshot, after, i);
      assert ids[i] == b;
    } else {
      ProjectedAreKnown(t.orders, snapshot.open, snapshot.fills, b);
      var i := ImportOf(t, snapshot, b);
      assert i in t.ids ==> RowInv(t, i);
      if i in t.ids {
        RowInRange(t, i);
      }
      AppliedImportAt(t, snapshot, after, i);
      assert i in ids && ids[i] == b;
    }
  }

  lemma NumberStays(t: Tables, snapshot: Snapshot, after: Account, i: Id)
    requires i in t.ids && i < |t.desk.orders|
    ensures i in Applied(t, snapshot, after).ids && Applied(t, snapshot, after).ids[i] == t.ids[i]
  {
    hide ReflectedRows, Imports;
  }

  lemma ImportOf(t: Tables, snapshot: Snapshot, b: BrokerId) returns (i: Id)
    requires b !in t.orders && RowOf(snapshot.open, b).Some?
    ensures |t.desk.orders| <= i < |t.desk.orders| + |Imports(t.orders, snapshot.open)|
    ensures Imports(t.orders, snapshot.open)[i - |t.desk.orders|].id == b
  {
    hide Imports;
    var imports := Imports(t.orders, snapshot.open);
    assert RowOf(snapshot.open, b).value in imports;
    var k :| 0 <= k < |imports| && imports[k].id == b;
    i := |t.desk.orders| + k;
  }

  lemma RowInRange(t: Tables, i: Id)
    requires RowInv(t, i)
    ensures i < |t.desk.orders| && (i in t.ids ==> t.ids[i] in t.orders)
  {
  }

  lemma ProjectedAreKnown(orders: Orders, open: seq<OpenRow>, fills: seq<BrokerFill>, b: BrokerId)
    requires b in ProjectedOrders(orders, open, fills)
    ensures b in orders || RowOf(open, b).Some?
  {
    hide FillsProjected, CancelProjected;
  }

  lemma AppliedOrder(t: Tables, snapshot: Snapshot, after: Account, b: BrokerId)
    requires Joined(t) && after.orders == ProjectedOrders(t.orders, snapshot.open, snapshot.fills)
    requires b in after.orders
    ensures OrderInv(after.orders[b])
  {
    hide Projected, OrderInv, RowInv, HasRow, RowOf, TotalOf, ProjectedOrders;
    ProjectedOrderInv(Get(t.orders, b), RowOf(snapshot.open, b), TotalOf(snapshot.fills, b));
    assert Get(after.orders, b) == Projected(Get(t.orders, b), RowOf(snapshot.open, b), TotalOf(snapshot.fills, b));
  }

  lemma AppliedJoins(t: Tables, snapshot: Snapshot, after: Account)
    requires Joined(t) && WellFormed(snapshot)
             && after.orders == ProjectedOrders(t.orders, snapshot.open, snapshot.fills)
    ensures Joined(Applied(t, snapshot, after))
  {
    hide OrderInv, RowInv, HasRow, OneRowEach, ProjectedOrders, WellFormed, ReflectedAt, Imports;
    var next := Applied(t, snapshot, after);
    forall i: Id | i in next.ids || i < |next.desk.orders|
      ensures RowInv(next, i)
    {
      if i in t.ids || i < |t.desk.orders| {
        RowInRange(t, i);
        AppliedKnownRow(t, snapshot, after, i);
      } else {
        AppliedImport(t, snapshot, after, i);
      }
    }
    AppliedNumbers(t, snapshot, after);
    forall b | b in next.orders
      ensures HasRow(next.ids, b) && OrderInv(next.orders[b])
    {
      AppliedHasRow(t, snapshot, after, b);
      AppliedOrder(t, snapshot, after, b);
    }
  }

  // ---------------------------------------------------------------- every call is a step of the desk

  lemma DeskCallJoins(t: Tables, desk: Desk)
    requires Joined(t) && t.desk.orders <= desk.orders
    requires forall i :: |t.desk.orders| <= i < |desk.orders| ==> desk.orders[i].status == Created
    ensures Joined(t.(desk := desk))
  {
    hide HasRow, OneRowEach, OrderInv;
    forall i: Id | i in t.ids || i < |desk.orders|
      ensures RowInv(t.(desk := desk), i)
    {
      assert i in t.ids ==> RowInv(t, i);
      assert i < |t.desk.orders| ==> RowInv(t, i);
    }
  }

  /** What a call is to the desk: a step of its own, or something that happens outside. */
  ghost function DeskOp(t: Tables, call: Call, clock: Clock, rank: Rank): Op {
    if call.DeskCall? && !call.op.Outside? then call.op
    else
      var after := Apply(t, call, clock, rank).desk;
      Outside(after.orders, after.positions)
  }

  lemma StatusIsOutside(rows: seq<OrderRow>, i: Id, status: Status)
    requires DistinctKeys(rows) && i < |rows|
    ensures OutsideOrders(rows, rows[i := rows[i].(status := status)])
  {
  }

  lemma ImportKeysDiffer(a: BrokerId, b: BrokerId)
    requires ImportKey(a) == ImportKey(b)
    ensures a == b
  {
    var prefix := "broker-import:MOCK:KIWOOM_MOCK_PRIMARY:";
    assert (prefix + a)[|prefix|..] == a && (prefix + b)[|prefix|..] == b;
  }

  lemma ReflectedKeys(t: Tables, after: Orders, imports: seq<OpenRow>)
    ensures var n, rows := |t.desk.orders|, ReflectedRows(t, after, imports);
            && (forall i :: 0 <= i < n ==>
                rows[i].key == t.desk.orders[i].key && rows[i].payload == t.desk.orders[i].payload)
            && (forall k :: n <= k < |rows| ==>
                rows[k].key == ImportKey(imports[k - n].id) && rows[k].payload.ByOthers?)
  {
    hide ImportKey, OpenStatus;
  }

  lemma FreeKeysDiffer(rows: seq<OrderRow>, key: Key, i: nat)
    requires Find(rows, key).None? && i < |rows|
    ensures rows[i].key != key
  {
  }

  lemma ImportsAreApart(imports: seq<OpenRow>, i: nat, j: nat)
    requires DistinctIds(imports) && i < j < |imports|
    ensures ImportKey(imports[i].id) != ImportKey(imports[j].id)
  {
    hide ImportKey;
    if ImportKey(imports[i].id) == ImportKey(imports[j].id) {
      ImportKeysDiffer(imports[i].id, imports[j].id);
    }
  }

  lemma ReflectionIsOutside(t: Tables, after: Orders, imports: seq<OpenRow>)
    requires DistinctKeys(t.desk.orders) && DistinctIds(imports)
    requires forall r :: r in imports ==> Find(t.desk.orders, ImportKey(r.id)).None?
    ensures OutsideOrders(t.desk.orders, ReflectedRows(t, after, imports))
  {
    hide ImportKey, ReflectedRows, Find, DistinctIds;
    var n := |t.desk.orders|;
    var rows := ReflectedRows(t, after, imports);
    ReflectedKeys(t, after, imports);
    forall i, j | 0 <= i < j < |rows|
      ensures rows[i].key != rows[j].key
    {
      if i >= n {
        ImportsAreApart(imports, i - n, j - n);
      } else if j >= n {
        assert imports[j - n] in imports;
        FreeKeysDiffer(t.desk.orders, ImportKey(imports[j - n].id), i);
      }
    }
  }

  ghost predicate TablesInv(t: Tables) {
    DeskInv(t.desk) && Joined(t) && NoDuplicates(t.fills)
  }

  lemma OutsideStep(d: Desk, after: Desk)
    requires OutsideOrders(d.orders, after.orders) && after == d.(orders := after.orders, positions := after.positions)
    ensures OrderDesk.Step(d, Outside(after.orders, after.positions)) == after
  {
  }

  lemma DeskCallIsStep(t: Tables, op: Op)
    requires TablesInv(t) && !op.Outside?
    ensures TablesInv(t.(desk := OrderDesk.Step(t.desk, op)))
  {
    hide DeskInv, Joined, NoDuplicates, OrderDesk.Step, Covered;
    StepKeeps(t.desk, op);
    StepCreates(t.desk, op);
    DeskCallJoins(t, OrderDesk.Step(t.desk, op));
  }

  lemma DeskKeys(d: Desk)
    requires DeskInv(d)
    ensures DistinctKeys(d.orders)
  {
    BoardKeys(BoardOf(d));
  }

  lemma TestOrderIsOutside(t: Tables, row: OrderRow)
    requires TablesInv(t) && Find(t.desk.orders, row.key).None? && row.payload.ByOthers? && row.status == Created
    ensures OutsideOrders(t.desk.orders, t.desk.orders + [row])
    ensures Joined(t.(desk := t.desk.(orders := t.desk.orders + [row])))
  {
    hide DeskInv, Joined, NoDuplicates;
    DeskKeys(t.desk);
    DeskCallJoins(t, t.desk.(orders := t.desk.orders + [row]));
  }

  lemma MovedIsOutside(t: Tables, i: Id, status: Status)
    requires TablesInv(t) && i < |t.desk.orders|
    ensures var after := Moved(t, i, status).desk;
            && OutsideOrders(t.desk.orders, after.orders) && after == t.desk.(orders := after.orders)
    ensures Moved(t, i, status).fills == t.fills
  {
    hide DeskInv, Joined, NoDuplicates, OutsideOrders;
    DeskKeys(t.desk);
    StatusIsOutside(t.desk.orders, i, status);
  }

  lemma ProjectionIsOutside(t: Tables, snapshot: Snapshot, clock: Clock, rank: Rank)
    requires TablesInv(t)
    ensures var after := ProjectedTables(t, snapshot, clock, rank);
            && Joined(after) && NoDuplicates(after.fills)
            && OutsideOrders(t.desk.orders, after.desk.orders)
            && after.desk == t.desk.(orders := after.desk.orders, positions := after.desk.positions)
  {
    hide DeskInv, Joined, NoDuplicates, OutsideOrders, ReflectedRows, ProjectedIds, Imports, ImportKey, Unprojectable,
      ProjectedAccount;
    DeskKeys(t.desk);
    var a := ProjectedAccount(AccountOf(t), snapshot, clock, rank);
    if Projectable(t, snapshot, clock) {
      OrdersProjected(AccountOf(t), snapshot, clock, rank);
      AppliedJoins(t, snapshot, a);
      WellFormedIds(snapshot);
      ImportsAreDistinct(t.orders, snapshot.open);
      ReflectionIsOutside(t, a.orders, Imports(t.orders, snapshot.open));
      FillsRecordedOnce(AccountOf(t), snapshot, clock, rank);
    } else {
      SameIsOutside(t.desk.orders);
    }
  }

  lemma SameIsOutside(rows: seq<OrderRow>)
    requires DistinctKeys(rows)
    ensures OutsideOrders(rows, rows)
  {
  }

  /** Sending, cancelling, projecting and what others order are nothing but something outside to the desk. */
  lemma CallIsDeskStep(t: Tables, call: Call, clock: Clock, rank: Rank)
    requires TablesInv(t)
    ensures var after := Apply(t, call, clock, rank);
            TablesInv(after) && after.desk == OrderDesk.Step(t.desk, DeskOp(t, call, clock, rank))
  {
    hide DeskInv, Joined, NoDuplicates, OrderDesk.Step, OutsideOrders, Moved, ProjectedTables, Cancellable, Find,
      HasActive;
    var after := Apply(t, call, clock, rank);
    if call.DeskCall? && !call.op.Outside? {
      DeskCallIsStep(t, call.op);
    } else {
      OutsideCall(t, call, clock, rank);
      OutsideStep(t.desk, after.desk);
      StepKeeps(t.desk, DeskOp(t, call, clock, rank));
    }
  }

  /** What a call that is not one of the desk leaves behind. */
  lemma OutsideCall(t: Tables, call: Call, clock: Clock, rank: Rank)
    requires TablesInv(t) && (call.DeskCall? ==> call.op.Outside?)
    ensures var after := Apply(t, call, clock, rank);
            && Joined(after) && NoDuplicates(after.fills)
            && OutsideOrders(t.desk.orders, after.desk.orders)
            && after.desk == t.desk.(orders := after.desk.orders, positions := after.desk.positions)
  {
    hide DeskInv, Joined, NoDuplicates, OutsideOrders, Moved, ProjectedTables, Find, HasActive;
    DeskKeys(t.desk);
    SameIsOutside(t.desk.orders);
    match call
    case DeskCall(_) =>
    case TestOrder(key, text, symbol, limitPrice, _) =>
      if Find(t.desk.orders, key).None? {
        TestOrderIsOutside(t, NewTestOrder(key, text, symbol, limitPrice));
      }
    case BeginSend(i, _) =>
      if InStatus(t, i, Created) {
        UnsentRow(t, i);
        StatusCall(t, i, Submitting);
      }
    case FinishSend(i, _, answer) =>
      if InStatus(t, i, Submitting) {
        SentCall(t, i, answer);
      }
    case BeginCancel(i, _) =>
      if i < |t.desk.orders| && Cancellable(t.desk.orders[i]) {
        CancellableIsKnown(t, i);
        StatusCall(t, i, CancelPending);
      }
    case FinishCancel(i, _, answer) =>
      if InStatus(t, i, CancelPending) && !answer.Accepted? {
        CancelledIsKnownBuy(t, i);
        StatusCall(t, i, if answer.Declined? then Reconciling else Unknown);
      }
    case Project(snapshot) =>
      ProjectionIsOutside(t, snapshot, clock, rank);
  }

  lemma StatusCall(t: Tables, i: Id, status: Status)
    requires TablesInv(t) && i < |t.desk.orders|
    requires if i in t.ids then t.desk.orders[i].side == Buy && status != Created && status != Submitting
             else Unsent(status)
    ensures var after := Moved(t, i, status);
            && Joined(after) && NoDuplicates(after.fills)
            && OutsideOrders(t.desk.orders, after.desk.orders) && after.desk == t.desk.(orders := after.desk.orders)
  {
    hide DeskInv, Joined, NoDuplicates, OutsideOrders;
    MovedJoins(t, i, status);
    MovedIsOutside(t, i, status);
  }

  lemma SentCall(t: Tables, i: Id, answer: Answer)
    requires TablesInv(t) && InStatus(t, i, Submitting)
    ensures var after := Sent(t, i, answer);
            && Joined(after) && NoDuplicates(after.fills)
            && OutsideOrders(t.desk.orders, after.desk.orders) && after.desk == t.desk.(orders := after.desk.orders)
  {
    hide DeskInv, Joined, NoDuplicates, OutsideOrders;
    SentJoins(t, i, answer);
    DeskKeys(t.desk);
    SameIsOutside(t.desk.orders);
    MovedIsOutside(t, i, if answer.Declined? then Rejected else if answer.Lost? then Unknown else Acknowledged);
  }

  /** A row about to be sent has no number yet. */
  lemma UnsentRow(t: Tables, i: Id)
    requires Joined(t) && (InStatus(t, i, Created) || InStatus(t, i, Submitting))
    ensures i !in t.ids
  {
    assert RowInv(t, i);
  }

  /** Every order that may be cancelled has a number, so the branch for a missing one is never taken. */
  lemma CancellableIsKnown(t: Tables, i: Id)
    requires Joined(t) && i < |t.desk.orders| && Cancellable(t.desk.orders[i])
    ensures i in t.ids
  {
    assert RowInv(t, i);
  }

  lemma CancelledIsKnownBuy(t: Tables, i: Id)
    requires Joined(t) && InStatus(t, i, CancelPending)
    ensures i in t.ids && t.desk.orders[i].side == Buy
  {
    assert RowInv(t, i);
  }

  // ---------------------------------------------------------------- every run is a run of the desk

  ghost function DeskOps(calls: seq<Call>, clock: Clock, rank: Rank): (ops: seq<Op>)
    ensures |ops| == |calls|
  {
    if calls == [] then []
    else
      var n := |calls| - 1;
      DeskOps(calls[..n], clock, rank) + [DeskOp(Reached(calls[..n], clock, rank), calls[n], clock, rank)]
  }

  /**
   * Whatever the calls, the desk goes through a run of its own, and order rows
   * and broker orders agree: all that is proved of every run of the desk holds.
   */
  lemma {:induction false} ReachedIsDeskRun(calls: seq<Call>, clock: Clock, rank: Rank)
    ensures TablesInv(Reached(calls, clock, rank))
    ensures Reached(calls, clock, rank).desk == Run(OrderDesk.EMPTY, DeskOps(calls, clock, rank))
  {
    hide TablesInv, Apply, DeskOp, OrderDesk.Step;
    if calls == [] {
      EmptyTables();
    } else {
      var n := |calls| - 1;
      var ops := DeskOps(calls, clock, rank);
      ReachedIsDeskRun(calls[..n], clock, rank);
      CallIsDeskStep(Reached(calls[..n], clock, rank), calls[n], clock, rank);
      assert ops[..n] == DeskOps(calls[..n], clock, rank);
    }
  }

  lemma EmptyTables()
    ensures TablesInv(EMPTY_TABLES)
  {
    RunKeepsFromEmpty([]);
  }

  // ---------------------------------------------------------------- each source is sent once

  lemma StartedStaysStarted(t: Tables, call: Call, clock: Clock, rank: Rank, i: Id)
    requires TablesInv(t) && i < |t.desk.orders| && t.desk.orders[i].status != Created
    ensures var after := Apply(t, call, clock, rank);
            i < |after.desk.orders| && after.desk.orders[i].status != Created
  {
    hide TablesInv, OrderDesk.Step, ProjectedTables, Find, HasActive, Cancellable, Moved, Sent;
    forall j: Id, s: Status | j < |t.desk.orders| && s != Created
      ensures i < |Moved(t, j, s).desk.orders| && Moved(t, j, s).desk.orders[i].status != Created
    {
      MovedStaysStarted(t, j, s, i);
    }
    match call
    case DeskCall(op) =>
      if !op.Outside? {
        OldRowsStay(t, op, i);
      }
    case Project(snapshot) =>
      ProjectedStaysStarted(t, snapshot, clock, rank, i);
    case FinishSend(j, _, answer) =>
      if j < |t.desk.orders| {
        SentStaysStarted(t, j, answer, i);
      }
    case _ =>
  }

  lemma SentStaysStarted(t: Tables, j: Id, answer: Answer, i: Id)
    requires i < |t.desk.orders| && t.desk.orders[i].status != Created && j < |t.desk.orders|
    ensures var rows := Sent(t, j, answer).desk.orders;
            i < |rows| && rows[i].status != Created
  {
  }

  lemma MovedStaysStarted(t: Tables, j: Id, s: Status, i: Id)
    requires i < |t.desk.orders| && t.desk.orders[i].status != Created && j < |t.desk.orders| && s != Created
    ensures var rows := Moved(t, j, s).desk.orders;
            i < |rows| && rows[i].status != Created
  {
  }

  lemma OldRowsStay(t: Tables, op: Op, i: Id)
    requires TablesInv(t) && !op.Outside? && i < |t.desk.orders|
    ensures var rows := OrderDesk.Step(t.desk, op).orders;
            i < |rows| && rows[i] == t.desk.orders[i]
  {
    hide DeskInv, Joined, NoDuplicates, OrderDesk.Step, Covered;
    StepCreates(t.desk, op);
  }

  lemma ProjectedStaysStarted(t: Tables, snapshot: Snapshot, clock: Clock, rank: Rank, i: Id)
    requires TablesInv(t) && i < |t.desk.orders| && t.desk.orders[i].status != Created
    ensures var after := ProjectedTables(t, snapshot, clock, rank);
            i < |after.desk.orders| && after.desk.orders[i].status != Created
  {
    hide DeskInv, Joined, NoDuplicates, ProjectedTables, OutsideOrders;
    ProjectionIsOutside(t, snapshot, clock, rank);
    UnknownStays(t, snapshot, clock, rank, i);
    if i in t.ids {
      KnownIsStarted(ProjectedTables(t, snapshot, clock, rank), i);
    }
  }

  lemma KnownIsStarted(t: Tables, i: Id)
    requires Joined(t) && i in t.ids
    ensures i < |t.desk.orders| && t.desk.orders[i].status != Created
  {
    assert RowInv(t, i);
  }

  lemma UnknownStays(t: Tables, snapshot: Snapshot, clock: Clock, rank: Rank, i: Id)
    requires i < |t.desk.orders|
    ensures var after := ProjectedTables(t, snapshot, clock, rank);
            && i < |after.desk.orders| && (i in after.ids <==> i in t.ids)
            && (i !in t.ids ==> after.desk.orders[i] == t.desk.orders[i])
  {
    hide ProjectedAccount, Projectable, Imports;
  }

  /** How often row i was handed to the broker. */
  ghost function Sends(calls: seq<Call>, clock: Clock, rank: Rank, i: Id): nat {
    if calls == [] then 0
    else
      var n := |calls| - 1;
      var call := calls[n];
      Sends(calls[..n], clock, rank, i)
      + if call.BeginSend? && call.i == i && call.ready && InStatus(Reached(calls[..n], clock, rank), i, Created)
        then 1 else 0
  }

  lemma {:induction false} SentAtMostOnce(calls: seq<Call>, clock: Clock, rank: Rank, i: Id)
    ensures Sends(calls, clock, rank, i) <= 1
    ensures Sends(calls, clock, rank, i) == 1 ==>
              var rows := Reached(calls, clock, rank).desk.orders;
              i < |rows| && rows[i].status != Created
  {
    hide TablesInv, OrderDesk.Step, ProjectedTables, Sent, CancelAnswered, Cancellable, HasActive, Find;
    if calls != [] {
      var n := |calls| - 1;
      SentAtMostOnce(calls[..n], clock, rank, i);
      if Sends(calls[..n], clock, rank, i) == 1 {
        ReachedIsDeskRun(calls[..n], clock, rank);
        StartedStaysStarted(Reached(calls[..n], clock, rank), calls[n], clock, rank, i);
      }
    }
  }

  /**
   * In every run a trigger, an approval, or a decision with its action leads to at
   * most one order sent, and that once.
   */
  lemma SentOncePerSource(calls: seq<Call>, clock: Clock, rank: Rank, i: Id, j: Id)
    requires Sends(calls, clock, rank, i) > 0 && Sends(calls, clock, rank, j) > 0
    ensures Sends(calls, clock, rank, i) == Sends(calls, clock, rank, j) == 1
    ensures var rows := Reached(calls, clock, rank).desk.orders;
            && i < |rows| && j < |rows|
            && (SameSource(rows[i].payload, rows[j].payload) ==> i == j)
  {
    hide TablesInv, Reached, Sends, DeskOps, Run;
    SentAtMostOnce(calls, clock, rank, i);
    SentAtMostOnce(calls, clock, rank, j);
    ReachedIsDeskRun(calls, clock, rank);
    if i != j {
      ExactlyOncePerSource(DeskOps(calls, clock, rank), if i < j then i else j, if i < j then j else i);
    }
  }

  // ---------------------------------------- one sale at a time, unless the broker takes something back

  /**
   * The broker takes back what it said of an order, or what the order said of
   * itself: it lists a filled sale as open, reports fewer fills of it than
   * before, or lists the order as a sale of another symbol or in place of a buy.
   */
  predicate TakesBack(order: Order, row: Option<OpenRow>, total: Option<int>) {
    match row
    case Some(r) => r.side == Sell && (order.side == Buy || order.symbol != r.symbol || order.status == Filled)
    case None => order.side == Sell && order.status == Filled && total.Some? && 0 < total.value < order.filled
  }

  lemma SaleRevivedExactly(order: Order, row: Option<OpenRow>, total: Option<int>)
    requires NeverCancelled(order)
    ensures var after := Projected(Some(order), row, total);
            && after.Some?
            && ((after.value.side == Sell && Active(after.value.status) ==>
                   order.side == Sell && Active(order.status) && after.value.symbol == order.symbol)
                <==> !TakesBack(order, row, total))
  {
  }

  ghost predicate NothingTakenBack(t: Tables, snapshot: Snapshot) {
    forall i :: i in t.ids && i < |t.desk.orders| && Own(t.desk.orders[i]) && t.ids[i] in t.orders ==>
      !TakesBack(t.orders[t.ids[i]], RowOf(snapshot.open, t.ids[i]), TotalOf(snapshot.fills, t.ids[i]))
  }

  lemma RowSettlesExactly(t: Tables, snapshot: Snapshot, after: Account, i: Id)
    requires Joined(t) && after.orders == ProjectedOrders(t.orders, snapshot.open, snapshot.fills)
    requires i < |t.desk.orders| && Own(t.desk.orders[i])
    ensures var rows := Applied(t, snapshot, after).desk.orders;
            (ActiveOwnSale(rows[i]) ==> ActiveOwnSale(t.desk.orders[i]) && rows[i].symbol == t.desk.orders[i].symbol)
            <==> (i in t.ids && t.ids[i] in t.orders ==>
                    !TakesBack(t.orders[t.ids[i]], RowOf(snapshot.open, t.ids[i]), TotalOf(snapshot.fills, t.ids[i])))
  {
    hide Projected, ProjectedOrders, RowOf, TotalOf, HasRow, OneRowEach, TakesBack, Imports, ProjectedIds;
    assert RowInv(t, i);
    if i in t.ids {
      var b := t.ids[i];
      ProjectedStays(t.orders, snapshot.open, snapshot.fills, b);
      SaleRevivedExactly(t.orders[b], RowOf(snapshot.open, b), TotalOf(snapshot.fills, b));
      assert Get(after.orders, b) == Projected(Get(t.orders, b), RowOf(snapshot.open, b), TotalOf(snapshot.fills, b));
    }
  }

  /** A projection makes an own order an active sale that it was not exactly if the broker takes something back. */
  lemma ProjectionSettlesExactly(t: Tables, snapshot: Snapshot, clock: Clock, rank: Rank)
    requires TablesInv(t) && Projectable(t, snapshot, clock)
    ensures var after := ProjectedTables(t, snapshot, clock, rank);
            && |t.desk.orders| <= |after.desk.orders|
            && (Settled(t.desk.orders, after.desk.orders) <==> NothingTakenBack(t, snapshot))
  {
    hide DeskInv, Joined, NoDuplicates, ProjectedAccount, Projectable, ActiveOwnSale, TakesBack, RowOf, TotalOf, Own,
      Applied;
    var a := ProjectedAccount(AccountOf(t), snapshot, clock, rank);
    var rows := ProjectedTables(t, snapshot, clock, rank).desk.orders;
    OrdersProjected(AccountOf(t), snapshot, clock, rank);
    ProjectionIsOutside(t, snapshot, clock, rank);
    forall i | 0 <= i < |t.desk.orders|
      ensures ActiveOwnSale(rows[i]) ==> Own(t.desk.orders[i])
      ensures Own(t.desk.orders[i]) ==>
                ((ActiveOwnSale(rows[i]) ==>
                  ActiveOwnSale(t.desk.orders[i]) && rows[i].symbol == t.desk.orders[i].symbol)
                 <==> (i in t.ids && t.ids[i] in t.orders ==>
                         !TakesBack(t.orders[t.ids[i]], RowOf(snapshot.open, t.ids[i]),
                                    TotalOf(snapshot.fills, t.ids[i]))))
    {
      OwnStays(t.desk.orders, rows, i);
      if Own(t.desk.orders[i]) {
        RowSettlesExactly(t, snapshot, a, i);
      }
    }
  }

  lemma OwnStays(before: seq<OrderRow>, after: seq<OrderRow>, i: nat)
    requires OutsideOrders(before, after) && i < |before|
    ensures i < |after| && (Own(after[i]) <==> Own(before[i]))
    ensures ActiveOwnSale(after[i]) ==> Own(after[i])
  {
  }

  lemma {:induction false} DeskOpAt(calls: seq<Call>, clock: Clock, rank: Rank, k: nat)
    requires k < |calls|
    ensures DeskOps(calls, clock, rank)[k] == DeskOp(Reached(calls[..k], clock, rank), calls[k], clock, rank)
    ensures DeskOps(calls, clock, rank)[..k] == DeskOps(calls[..k], clock, rank)
  {
    hide DeskOp, Reached;
    var n := |calls| - 1;
    if k < n {
      DeskOpAt(calls[..n], clock, rank, k);
      assert calls[..n][..k] == calls[..k];
      assert DeskOps(calls, clock, rank)[..k] == DeskOps(calls[..n], clock, rank)[..k];
    } else {
      assert DeskOps(calls, clock, rank)[..k] == DeskOps(calls[..n], clock, rank);
    }
  }

  ghost predicate NothingEverTakenBack(calls: seq<Call>, clock: Clock, rank: Rank) {
    forall k :: 0 <= k < |calls| && calls[k].Project? ==>
      NothingTakenBack(Reached(calls[..k], clock, rank), calls[k].snapshot)
  }

  /** Sending and cancelling never make an order an active sale, nor do the orders of others. */
  lemma CallSettles(t: Tables, call: Call, clock: Clock, rank: Rank)
    requires TablesInv(t) && (call.DeskCall? ==> call.op.Outside?)
    requires call.Project? ==> NothingTakenBack(t, call.snapshot)
    ensures var after := Apply(t, call, clock, rank).desk.orders;
            |t.desk.orders| <= |after| && Settled(t.desk.orders, after)
  {
    hide TablesInv, ProjectedTables, Find, HasActive, NothingTakenBack, Moved, Settled;
    StaySettled(t.desk.orders);
    match call
    case Project(snapshot) =>
      ProjectionSettles(t, snapshot, clock, rank);
    case TestOrder(key, text, symbol, limitPrice, _) =>
      NewRowSettles(t.desk.orders, NewTestOrder(key, text, symbol, limitPrice));
    case BeginSend(i, _) =>
      MovedSettles(t, i, Submitting);
    case FinishSend(i, _, _) =>
      MovedSettles(t, i, Acknowledged);
      MovedSettles(t, i, Rejected);
      MovedSettles(t, i, Unknown);
    case BeginCancel(i, _) =>
      MovedSettles(t, i, CancelPending);
      MovedSettles(t, i, Reconciling);
    case FinishCancel(i, _, _) =>
      MovedSettles(t, i, Reconciling);
      MovedSettles(t, i, Unknown);
    case DeskCall(_) =>
  }

  lemma ProjectionSettles(t: Tables, snapshot: Snapshot, clock: Clock, rank: Rank)
    requires TablesInv(t) && NothingTakenBack(t, snapshot)
    ensures var after := ProjectedTables(t, snapshot, clock, rank).desk.orders;
            |t.desk.orders| <= |after| && Settled(t.desk.orders, after)
  {
    hide TablesInv, NothingTakenBack, Applied, Projectable, Settled;
    StaySettled(t.desk.orders);
    if Projectable(t, snapshot, clock) {
      ProjectionSettlesExactly(t, snapshot, clock, rank);
    }
  }

  lemma StaySettled(rows: seq<OrderRow>)
    ensures Settled(rows, rows)
  {
  }

  lemma NewRowSettles(rows: seq<OrderRow>, row: OrderRow)
    ensures Settled(rows, rows + [row])
  {
  }

  lemma StatusSettles(rows: seq<OrderRow>, i: Id, status: Status)
    requires i < |rows| && Active(rows[i].status)
    ensures Settled(rows, rows[i := rows[i].(status := status)])
  {
  }

  lemma MovedSettles(t: Tables, i: Id, status: Status)
    ensures i < |t.desk.orders| && Active(t.desk.orders[i].status) ==>
              var after := Moved(t, i, status).desk.orders;
              |after| == |t.desk.orders| && Settled(t.desk.orders, after)
  {
    hide Settled;
    if i < |t.desk.orders| && Active(t.desk.orders[i].status) {
      StatusSettles(t.desk.orders, i, status);
    }
  }

  lemma QuietCallsAreQuiet(calls: seq<Call>, clock: Clock, rank: Rank)
    requires NothingEverTakenBack(calls, clock, rank)
    ensures QuietRun(OrderDesk.EMPTY, DeskOps(calls, clock, rank))
  {
    hide TablesInv, Apply, Run, Reached, Settled, NothingTakenBack;
    var ops := DeskOps(calls, clock, rank);
    forall k | 0 <= k < |ops| && ops[k].Outside?
      ensures |Run(OrderDesk.EMPTY, ops[..k]).orders| <= |ops[k].orders|
      ensures Settled(Run(OrderDesk.EMPTY, ops[..k]).orders, ops[k].orders)
    {
      DeskOpAt(calls, clock, rank, k);
      ReachedIsDeskRun(calls[..k], clock, rank);
      CallSettles(Reached(calls[..k], clock, rank), calls[k], clock, rank);
    }
  }

  /**
   * In every run a symbol has at most one active own sale, unless a snapshot takes
   * back what the broker said before.
   */
  lemma OneSaleUnlessTakenBack(calls: seq<Call>, clock: Clock, rank: Rank)
    requires NothingEverTakenBack(calls, clock, rank)
    ensures OneSaleEach(Reached(calls, clock, rank).desk.orders)
  {
    hide Reached, Run, NothingEverTakenBack, QuietRun;
    QuietCallsAreQuiet(calls, clock, rank);
    OneActiveSalePerSymbol(DeskOps(calls, clock, rank));
    ReachedIsDeskRun(calls, clock, rank);
  }

  /** An order that ended becomes active again exactly if it is reported open, or as filled in part only. */
  lemma EndedRevivedExactly(order: Order, row: Option<OpenRow>, total: Option<int>)
    requires !Active(order.status)
    ensures var after := Projected(Some(order), row, total);
            && after.Some?
            && (Active(after.value.status) <==> row.Some? || (total.Some? && 0 < total.value < order.requested))
  {
  }

  /**
   * The same snapshot again revives an order that the first projection of it
   * ended exactly if that confirmed the cancel of a partly filled one. No sale
   * is ever cancelled, so it never revives a sale.
   */
  lemma AgainRevivesExactly(order: Order, row: Option<OpenRow>, total: Option<int>)
    requires OrderInv(order) && Active(order.status)
    ensures var once := Projected(Some(order), row, total);
            var twice := Projected(once, row, total);
            && once.Some? && twice.Some?
            && (!Active(once.value.status) && Active(twice.value.status) <==> Reopens(Some(order), row, total))
            && (Reopens(Some(order), row, total) ==> order.side == Buy)
            && !TakesBack(once.value, row, total)
  {
    if row.Some? {
      OpenRowIsFinal(Some(order), row.value, total);
    } else if order.status == CancelPending {
      ConfirmedCancel(order, total);
    } else {
      NoCancel(order, total);
    }
  }

  lemma ConfirmedCancel(order: Order, total: Option<int>)
    requires OrderInv(order) && order.status == CancelPending
    ensures var once := Projected(Some(order), None, total);
            var twice := Projected(once, None, total);
            && once.Some? && twice.Some? && order.side == Buy && once.value.side == Buy
            && (!Active(once.value.status) && Active(twice.value.status) <==> Reopens(Some(order), None, total))
  {
  }

  lemma NoCancel(order: Order, total: Option<int>)
    requires OrderInv(order) && Active(order.status) && order.status != CancelPending
    ensures var once := Projected(Some(order), None, total);
            var twice := Projected(once, None, total);
            && once.Some? && twice.Some? && !TakesBack(once.value, None, total)
            && (!Active(once.value.status) ==> !Active(twice.value.status))
  {
    if total.Some? {
      var filled := FillsProjected(order, total.value);
      assert CancelProjected(filled, total.value) == filled;
      hide CancelProjected;
      assert Projected(Some(order), None, total) == Some(filled);
    }
  }

  // ---------------------------------------------------------------- a stop that sells what is not the account's own

  /** What own fills leave of a symbol; without any, what the position row has been attributed before. */
  function OwnPart(fills: seq<ManagedReplay.Trade>, position: Option<Position>): nat {
    if fills != [] then ManagedReplay.Replay(fills).quantity
    else if position.Some? then Max(0, position.value.managed)
    else 0
  }

  /** The account's own shares of a symbol as the tables have them. */
  function OwnShares(t: Tables, rank: Rank, symbol: Symbol): nat {
    OwnPart(StoredTrades(AccountOf(t), rank, symbol), Get(t.desk.positions, symbol))
  }

  /** The same as the projection of a snapshot gets to see it. */
  function SeenShares(t: Tables, snapshot: Snapshot, clock: Clock, rank: Rank, symbol: Symbol): nat {
    OwnPart(History(Seen(AccountOf(t), snapshot, clock, rank), symbol), Get(t.desk.positions, symbol))
  }

  lemma PositionReplayed(position: Option<Position>, row: BrokerPosition, trades: seq<ManagedReplay.Trade>)
    requires ValidHolding(row)
    ensures var after := ProjectedPosition(position, Some(row), trades);
            && after.Some? && after.value.quantity == row.quantity
            && after.value.managed == Min(OwnPart(trades, position), row.quantity)
  {
    hide ManagedReplay.Replay;
  }

  lemma PositionAfter(a: Account, snapshot: Snapshot, clock: Clock, rank: Rank, row: BrokerPosition)
    requires WellFormed(snapshot) && row in snapshot.positions
    ensures Get(ProjectedAccount(a, snapshot, clock, rank).positions, row.symbol) ==
            ProjectedPosition(Get(a.positions, row.symbol), Some(row),
                              History(Seen(a, snapshot, clock, rank), row.symbol))
  {
    hide Seen, ProjectedPosition, ProjectedOrders, HoldingOf;
    HoldingIsFound(snapshot.positions, row);
  }

  /**
   * A reported position's managed part after a projection: the own shares that the
   * replay saw, capped by the holding.
   */
  lemma ManagedPartIsSeen(t: Tables, snapshot: Snapshot, clock: Clock, rank: Rank, row: BrokerPosition)
    requires Projectable(t, snapshot, clock) && row in snapshot.positions
    ensures var after := ProjectedTables(t, snapshot, clock, rank);
            && row.symbol in after.desk.positions
            && after.desk.positions[row.symbol].quantity == row.quantity
            && after.desk.positions[row.symbol].managed ==
                 Min(SeenShares(t, snapshot, clock, rank, row.symbol), row.quantity)
  {
    hide Seen, ProjectedAccount, ReflectedRows, ProjectedIds, Imports, OwnPart, ProjectedPosition, HoldingOf;
    ProjectableHoldings(t, snapshot, clock, row);
    var a := AccountOf(t);
    PositionAfter(a, snapshot, clock, rank, row);
    PositionReplayed(Get(a.positions, row.symbol), row, History(Seen(a, snapshot, clock, rank), row.symbol));
  }

  lemma ProjectableHoldings(t: Tables, snapshot: Snapshot, clock: Clock, row: BrokerPosition)
    requires Projectable(t, snapshot, clock) && row in snapshot.positions
    ensures HoldingOf(snapshot.positions, row.symbol) == Some(row) && ValidHolding(row)
  {
    HoldingIsFound(snapshot.positions, row);
  }

  /** A stop sells the whole managed part. */
  lemma StopSellsManagedPart(d: Desk, symbol: Symbol, s: StopSetting, m: Moment)
    requires symbol in d.positions
    ensures var rows := OrderDesk.Step(d, EvaluateStop(symbol, s, m)).orders;
            |rows| > |d.orders| ==>
              && |rows| == |d.orders| + 1 && rows[|d.orders|].side == Sell && rows[|d.orders|].symbol == symbol
              && rows[..|d.orders|] == d.orders && rows[|d.orders|].status == Created
              && rows[|d.orders|].quantity == d.positions[symbol].managed > 0
  {
    hide EvaluatePosition, Reserved, HasActive;
    if EvaluatePosition(BoardOf(d), symbol, d.positions[symbol], s, m).Some? {
      EvaluateOrders(BoardOf(d), symbol, d.positions[symbol], s, m);
    }
  }

  /**
   * The first stop after a projection sells the own shares that the replay saw,
   * capped by the holding. It sells shares that are not the account's own exactly
   * if the fills just recorded took some of those and the broker still holds more
   * than the rest, and it sells then as many as were taken, or as many as there are.
   */
  lemma StopOversellsExactly(t: Tables, snapshot: Snapshot, clock: Clock, rank: Rank, row: BrokerPosition,
                             s: StopSetting, m: Moment)
    requires Projectable(t, snapshot, clock) && row in snapshot.positions
    ensures var next := Apply(t, Project(snapshot), clock, rank);
            var stopped := Apply(next, DeskCall(EvaluateStop(row.symbol, s, m)), clock, rank);
            var seen, rest := SeenShares(t, snapshot, clock, rank, row.symbol), OwnShares(next, rank, row.symbol);
            var n := |next.desk.orders|;
            |stopped.desk.orders| > n ==>
              && |stopped.desk.orders| == n + 1
              && var sold := stopped.desk.orders[n].quantity;
                 && sold == Min(seen, row.quantity)
                 && (sold > Min(rest, row.quantity) <==> rest < seen && rest < row.quantity)
                 && (sold > rest ==> sold - rest == Min(seen - rest, row.quantity - rest))
  {
    hide Projectable, ProjectedTables, OwnShares, SeenShares, OrderDesk.Step;
    var next := ProjectedTables(t, snapshot, clock, rank);
    ManagedPartIsSeen(t, snapshot, clock, rank, row);
    StopSellsManagedPart(next.desk, row.symbol, s, m);
  }

  ghost predicate KnowsRows(t: Tables, snapshot: Snapshot) {
    && (forall r :: r in snapshot.open ==> r.id in t.orders)
    && (forall r :: r in snapshot.positions ==> r.symbol in t.desk.positions)
  }

  /** Once every reported order and position has a row, what is seen is what was own before the snapshot. */
  lemma KnownRowsSeeBefore(t: Tables, snapshot: Snapshot, clock: Clock, rank: Rank, row: BrokerPosition)
    requires KnowsRows(t, snapshot) && row in snapshot.positions
    ensures SeenShares(t, snapshot, clock, rank, row.symbol) == OwnShares(t, rank, row.symbol)
  {
    hide Seen, OwnTrades, OwnPart;
    KnownRowsReadStored(AccountOf(t), snapshot, clock, rank);
  }

  lemma StoredAfterProjection(t: Tables, snapshot: Snapshot, clock: Clock, rank: Rank, symbol: Symbol)
    requires Projectable(t, snapshot, clock)
    ensures StoredTrades(AccountOf(ProjectedTables(t, snapshot, clock, rank)), rank, symbol) ==
            OwnTrades(StoredAfter(AccountOf(t), snapshot, clock), rank, symbol)
  {
    hide Projectable, OwnTrades, Seen, ReflectedRows, ProjectedIds, Imports;
  }

  /** If the replay saw what the projection leaves stored, the managed part is own. */
  lemma SeenAsStored(t: Tables, snapshot: Snapshot, clock: Clock, rank: Rank, row: BrokerPosition)
    requires Projectable(t, snapshot, clock) && row in snapshot.positions
    requires History(Seen(AccountOf(t), snapshot, clock, rank), row.symbol) ==
             OwnTrades(StoredAfter(AccountOf(t), snapshot, clock), rank, row.symbol)
    ensures var next := ProjectedTables(t, snapshot, clock, rank);
            && row.symbol in next.desk.positions
            && next.desk.positions[row.symbol].managed == Min(OwnShares(next, rank, row.symbol), row.quantity)
  {
    hide Projectable, ProjectedTables, StoredTrades, Seen, OwnTrades, StoredAfter, ManagedReplay.Replay;
    ManagedPartIsSeen(t, snapshot, clock, rank, row);
    StoredAfterProjection(t, snapshot, clock, rank, row.symbol);
  }

  /**
   * A position whose row comes after an imported one is never sold beyond what is own:
   * the import flushed the fills.
   */
  lemma FlushedStopSellsOwnShares(t: Tables, snapshot: Snapshot, clock: Clock, rank: Rank, row: BrokerPosition)
    requires Projectable(t, snapshot, clock) && row in snapshot.positions
    requires FlushedFor(t.desk.positions, snapshot.positions, row.symbol)
    ensures var next := ProjectedTables(t, snapshot, clock, rank);
            && row.symbol in next.desk.positions
            && next.desk.positions[row.symbol].managed == Min(OwnShares(next, rank, row.symbol), row.quantity)
  {
    hide Projectable, ProjectedTables, OwnShares, FlushedFor, OwnTrades, StoredAfter, StoredBefore;
    SeenAsStored(t, snapshot, clock, rank, row);
  }

  /** Without news of own orders a stop after the projection sells own shares only. */
  lemma QuietStopSellsOwnShares(t: Tables, snapshot: Snapshot, clock: Clock, rank: Rank, row: BrokerPosition)
    requires TablesInv(t) && Projectable(t, snapshot, clock) && row in snapshot.positions
             && NoOwnNews(AccountOf(t), snapshot)
    ensures var next := ProjectedTables(t, snapshot, clock, rank);
            && row.symbol in next.desk.positions
            && next.desk.positions[row.symbol].managed == Min(OwnShares(next, rank, row.symbol), row.quantity)
  {
    hide DeskInv, Joined, NoDuplicates, Projectable, ProjectedTables, OwnShares, FlushedFor, OwnTrades, StoredAfter,
      StoredBefore, NoOwnNews;
    QuietReplaysAgree(AccountOf(t), snapshot, clock, rank, row.symbol);
    SeenAsStored(t, snapshot, clock, rank, row);
  }

  /**
   * One own sale that the replay did not see is enough, if it saw anything own and the
   * broker holds more than the rest.
   */
  lemma OwnSaleIsSoldAgainExactly(t: Tables, snapshot: Snapshot, clock: Clock, rank: Rank, row: BrokerPosition,
                                  sale: ManagedReplay.Trade)
    requires Projectable(t, snapshot, clock) && row in snapshot.positions && sale.side == Sell
    requires OwnTrades(StoredAfter(AccountOf(t), snapshot, clock), rank, row.symbol) ==
             History(Seen(AccountOf(t), snapshot, clock, rank), row.symbol) + [sale]
    ensures var next := ProjectedTables(t, snapshot, clock, rank);
            var seen, rest := SeenShares(t, snapshot, clock, rank, row.symbol), OwnShares(next, rank, row.symbol);
            && rest == Max(0, ManagedReplay.Replay(History(Seen(AccountOf(t), snapshot, clock, rank),
                                                           row.symbol)).quantity - sale.quantity)
            && row.symbol in next.desk.positions
            && (next.desk.positions[row.symbol].managed > Min(rest, row.quantity) <==> seen > 0 && row.quantity > rest)
  {
    hide Projectable, ProjectedTables, StoredTrades, Seen, OwnTrades, StoredAfter;
    var trades := History(Seen(AccountOf(t), snapshot, clock, rank), row.symbol);
    ManagedPartIsSeen(t, snapshot, clock, rank, row);
    StoredAfterProjection(t, snapshot, clock, rank, row.symbol);
    assert (trades + [sale])[..|trades|] == trades;
  }

  // ---------------------------------------------------------------- sales fit what the broker lets go

  /** The first sale after a projection is at most what the snapshot says is available, whoever creates it. */
  lemma FirstSaleFitsAvailable(t: Tables, snapshot: Snapshot, clock: Clock, rank: Rank, row: BrokerPosition, op: Op)
    requires TablesInv(t) && Projectable(t, snapshot, clock) && row in snapshot.positions && !op.Outside?
    ensures var next := Apply(t, Project(snapshot), clock, rank);
            var sold := Apply(next, DeskCall(op), clock, rank);
            forall i ::
              && |next.desk.orders| <= i < |sold.desk.orders|
              && sold.desk.orders[i].side == Sell && sold.desk.orders[i].symbol == row.symbol ==>
                sold.desk.orders[i].quantity <= row.available
  {
    hide TablesInv, OrderDesk.Step, Projectable, ProjectedTables, DeskOp;
    var next := ProjectedTables(t, snapshot, clock, rank);
    CallIsDeskStep(t, Project(snapshot), clock, rank);
    AvailableIsReported(t, snapshot, clock, rank, row);
    NewSaleFits(next, op, row.symbol);
  }

  lemma NewSaleFits(t: Tables, op: Op, symbol: Symbol)
    requires TablesInv(t) && !op.Outside? && symbol in t.desk.positions
    ensures var rows := OrderDesk.Step(t.desk, op).orders;
            forall i ::
              |t.desk.orders| <= i < |rows| && rows[i].side == Sell && rows[i].symbol == symbol ==>
                rows[i].quantity <= t.desk.positions[symbol].available
  {
    hide DeskInv, Joined, NoDuplicates, OrderDesk.Step, Covered;
    StepCreates(t.desk, op);
    CoveredFitsAvailable(t.desk.orders, symbol, t.desk.positions[symbol]);
  }

  lemma AvailableIsReported(t: Tables, snapshot: Snapshot, clock: Clock, rank: Rank, row: BrokerPosition)
    requires Projectable(t, snapshot, clock) && row in snapshot.positions
    ensures var positions := ProjectedTables(t, snapshot, clock, rank).desk.positions;
            && row.symbol in positions
            && positions[row.symbol].available == row.available && positions[row.symbol].quantity == row.quantity
  {
    hide ProjectedAccount, ReflectedRows, ProjectedIds, Imports, Seen, Unprojectable, WellFormed, Becomes, RowOf,
      TotalOf, HoldingOf, ManagedReplay.Replay;
    ProjectedAccountMeans(AccountOf(t), snapshot, clock, rank);
  }

  lemma CoveredFitsAvailable(orders: seq<OrderRow>, symbol: Symbol, p: Position)
    ensures forall quantity :: Covered(orders, symbol, p, quantity) ==> quantity <= p.available
  {
    hide Reserved, HasActive;
    if !HasActive(orders, symbol) {
      NothingReserved(orders, symbol);
    }
  }

  // ---------------------------------------------------------------- an order whose fate is unknown halts trading

  /**
   * An order that was being sent, or whose answer was lost, halts trading with
   * every snapshot that lists neither it nor a fill of it; without a number no
   * snapshot lists it.
   */
  lemma UnaccountedHalts(t: Tables, snapshot: Snapshot, i: Id)
    requires Joined(t) && i < |t.desk.orders|
    requires t.desk.orders[i].status == Submitting || t.desk.orders[i].status == Unknown
    requires i in t.ids ==> RowOf(snapshot.open, t.ids[i]).None? && TotalOf(snapshot.fills, t.ids[i]).None?
    ensures Halts(LedgerOf(AccountOf(t)), snapshot)
  {
    hide RowOf, TotalOf, HasRow, OneRowEach, OrderInv;
    assert RowInv(t, i);
    if i in t.ids {
      assert Troubled(Get(t.orders, t.ids[i]), RowOf(snapshot.open, t.ids[i]), TotalOf(snapshot.fills, t.ids[i]));
    } else {
      assert Unnumbered(t.desk.orders[i]) in UnnumberedRows(t.desk.orders, t.ids);
      assert AtBroker(Unnumbered(t.desk.orders[i]).status);
    }
  }

  /** At the broker are exactly the orders that are active and past validation. */
  lemma AtBrokerIsSentAndActive(status: Status)
    ensures AtBroker(status) <==> Active(status) && status != Created && status != Validating
    ensures BrokerVisible(status) <==> AtBroker(status)
  {
  }

  /** A comparison sees a row without a number as it is. */
  lemma UnnumberedSaysRow(row: OrderRow)
    ensures Mirrors(row, Unnumbered(row)) && Unnumbered(row).own == Own(row)
  {
  }

  predicate IsLost(t: Tables, i: Id) {
    i < |t.desk.orders| && i !in t.ids && t.desk.orders[i].status == Unknown
  }

  lemma LostStaysLost(t: Tables, call: Call, clock: Clock, rank: Rank, i: Id)
    requires TablesInv(t) && IsLost(t, i)
    ensures IsLost(Apply(t, call, clock, rank), i)
  {
    hide TablesInv, OrderDesk.Step, ProjectedTables, Find, HasActive, Cancellable, Moved, IsLost;
    forall j: Id, s: Status | j < |t.desk.orders| && j != i
      ensures IsLost(Moved(t, j, s), i)
    {
      MovedKeepsLost(t, j, s, i);
    }
    LostIsUntouched(t, i);
    match call
    case DeskCall(op) =>
      if !op.Outside? {
        OldRowsStay(t, op, i);
        SameRowIsLost(t, t.(desk := OrderDesk.Step(t.desk, op)), i);
      }
    case Project(snapshot) =>
      UnknownStays(t, snapshot, clock, rank, i);
      SameRowIsLost(t, ProjectedTables(t, snapshot, clock, rank), i);
    case TestOrder(key, text, symbol, limitPrice, _) =>
      SameRowIsLost(t, t.(desk := t.desk.(orders := t.desk.orders + [NewTestOrder(key, text, symbol, limitPrice)])), i);
    case FinishSend(j, _, answer) =>
      if j != i && InStatus(t, j, Submitting) {
        SentKeepsLost(t, j, answer, i);
      }
    case _ =>
  }

  lemma SameRowIsLost(t: Tables, after: Tables, i: Id)
    requires IsLost(t, i) && i < |after.desk.orders| && after.desk.orders[i] == t.desk.orders[i] && i !in after.ids
    ensures IsLost(after, i)
  {
  }

  lemma MovedKeepsLost(t: Tables, j: Id, s: Status, i: Id)
    requires IsLost(t, i) && j < |t.desk.orders| && j != i
    ensures IsLost(Moved(t, j, s), i)
  {
  }

  lemma SentKeepsLost(t: Tables, j: Id, answer: Answer, i: Id)
    requires IsLost(t, i) && j < |t.desk.orders| && j != i
    ensures IsLost(Sent(t, j, answer), i)
  {
  }

  lemma LostIsUntouched(t: Tables, i: Id)
    requires IsLost(t, i)
    ensures i < |t.desk.orders| && i !in t.ids && !Cancellable(t.desk.orders[i])
    ensures !InStatus(t, i, Created) && !InStatus(t, i, Submitting) && !InStatus(t, i, CancelPending)
  {
  }

  ghost function CallsFrom(t: Tables, calls: seq<Call>, clock: Clock, rank: Rank): Tables {
    if calls == [] then t else Apply(CallsFrom(t, calls[..|calls| - 1], clock, rank), calls[|calls| - 1], clock, rank)
  }

  lemma {:induction false} LostForGood(t: Tables, calls: seq<Call>, clock: Clock, rank: Rank, i: Id)
    requires TablesInv(t) && IsLost(t, i)
    ensures TablesInv(CallsFrom(t, calls, clock, rank)) && IsLost(CallsFrom(t, calls, clock, rank), i)
  {
    hide TablesInv, IsLost, Apply;
    if calls != [] {
      var n := |calls| - 1;
      LostForGood(t, calls[..n], clock, rank, i);
      LostStaysLost(CallsFrom(t, calls[..n], clock, rank), calls[n], clock, rank, i);
      CallIsDeskStep(CallsFrom(t, calls[..n], clock, rank), calls[n], clock, rank);
    }
  }

  lemma {:induction false} ReachedThenMore(calls: seq<Call>, more: seq<Call>, clock: Clock, rank: Rank)
    ensures Reached(calls + more, clock, rank) == CallsFrom(Reached(calls, clock, rank), more, clock, rank)
  {
    hide Apply;
    if more == [] {
      assert calls + more == calls;
    } else {
      var n := |more| - 1;
      ReachedThenMore(calls, more[..n], clock, rank);
      assert (calls + more)[..|calls| + n] == calls + more[..n];
    }
  }

  /** In every run, once the answer to sending an order was lost, every comparison ever after halts trading. */
  lemma LostAnswerHaltsForGood(calls: seq<Call>, more: seq<Call>, clock: Clock, rank: Rank, i: Id, snapshot: Snapshot)
    requires InStatus(Reached(calls, clock, rank), i, Submitting)
    ensures var answered := calls + [FinishSend(i, true, Lost)];
            Halts(LedgerOf(AccountOf(Reached(answered + more, clock, rank))), snapshot)
  {
    hide TablesInv, Apply, Halts, Joined, Reached, LedgerOf, AccountOf;
    var answered := calls + [FinishSend(i, true, Lost)];
    ReachedIsDeskRun(calls, clock, rank);
    ReachedIsDeskRun(answered, clock, rank);
    ReachedThenMore(calls, [FinishSend(i, true, Lost)], clock, rank);
    AnswerIsLost(Reached(calls, clock, rank), i, clock, rank);
    ReachedThenMore(answered, more, clock, rank);
    LostForGood(Reached(answered, clock, rank), more, clock, rank, i);
    LostHalts(Reached(answered + more, clock, rank), snapshot, i);
  }

  lemma AnswerIsLost(t: Tables, i: Id, clock: Clock, rank: Rank)
    requires TablesInv(t) && InStatus(t, i, Submitting)
    ensures IsLost(CallsFrom(t, [FinishSend(i, true, Lost)], clock, rank), i)
  {
    hide DeskInv, NoDuplicates, Joined, ProjectedTables, OrderDesk.Step;
    UnsentRow(t, i);
    assert [FinishSend(i, true, Lost)][..0] == [];
  }

  lemma LostHalts(t: Tables, snapshot: Snapshot, i: Id)
    requires TablesInv(t) && IsLost(t, i)
    ensures Halts(LedgerOf(AccountOf(t)), snapshot)
  {
    hide DeskInv, NoDuplicates, Joined, Halts, LedgerOf, AccountOf;
    UnaccountedHalts(t, snapshot, i);
  }
}
