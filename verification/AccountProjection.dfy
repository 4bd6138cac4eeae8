/**
 * The whole account under one projection: orders, recorded fills and positions.
 * The replay of a position reads the fills the database holds at that moment.
 * Nothing is flushed on its own, so these are the fills of earlier snapshots,
 * until a new row, first of an order and later of a position, is flushed.
 */
module AccountProjection {
  import opened Common
  import opened BrokerOrders
  import opened FillLedger
  import opened ManagedReplay
  import opened OwnFills
  import opened Positions
  import opened Reconciliation

  datatype Account = Account(
    orders: Orders,
    unsent: seq<Order>,
    positions: PositionTable,
    fills: seq<FillKey>,
    filledAt: map<FillKey, int>)

  function LedgerOf(a: Account): Ledger {
    Ledger(a.orders, a.unsent, a.positions)
  }

  /** The seconds into the day that an order time stands for, if it is a time of day. */
  type Clock = string -> Option<SecondOfDay>

  type SecondOfDay = s: int | 0 <= s < 86400

  // ---------------------------------------------------------------- times of new fills

  function FillTime(date: int, clock: Clock, key: FillKey): int {
    date * 86400 + if clock(key.fill.orderTime).Some? then clock(key.fill.orderTime).value else 0
  }

  function Timed(filledAt: map<FillKey, int>, news: seq<FillKey>, date: int, clock: Clock): map<FillKey, int> {
    filledAt + map k | k in news :: FillTime(date, clock, k)
  }

  // ---------------------------------------------------------------- what the database holds when

  /** The orders after only the open rows were applied. */
  function OpenedOrders(orders: Orders, open: seq<OpenRow>): (after: Orders)
    ensures forall id :: Get(after, id) == Opened(Get(orders, id), RowOf(open, id))
  {
    map id | id in orders.Keys + (set r | r in open :: r.id) :: Opened(Get(orders, id), RowOf(open, id)).value
  }

  /** How many open rows have been flushed: all up to the last one that imports an order. */
  function FlushedRows(orders: Orders, open: seq<OpenRow>): (n: nat)
    ensures n <= |open|
  {
    if open == [] then 0
    else if open[|open| - 1].id !in orders then |open|
    else FlushedRows(orders, open[..|open| - 1])
  }

  /** What the replays read before any position row is flushed. */
  function StoredBefore(a: Account, snapshot: Snapshot): Stored {
    Stored(OpenedOrders(a.orders, snapshot.open[..FlushedRows(a.orders, snapshot.open)]), a.fills, a.filledAt)
  }

  /** What they read after that, and what the projection leaves behind. */
  function StoredAfter(a: Account, snapshot: Snapshot, clock: Clock): Stored {
    var orders := ProjectedOrders(a.orders, snapshot.open, snapshot.fills);
    Stored(orders, Record(a.fills, orders, snapshot.fills),
           Timed(a.filledAt, NewFills(a.fills, orders, snapshot.fills, |snapshot.fills|), snapshot.date, clock))
  }

  /** Some of the rows is new to the position table, and its insertion flushes everything. */
  predicate InsertsPosition(positions: PositionTable, rows: seq<BrokerPosition>) {
    exists i :: 0 <= i < |rows| && rows[i].symbol !in positions
  }

  /** A row before the symbol's own was inserted. */
  predicate FlushedFor(positions: PositionTable, rows: seq<BrokerPosition>, symbol: Symbol) {
    if rows == [] then false
    else
      var before := rows[..|rows| - 1];
      if rows[|rows| - 1].symbol == symbol then InsertsPosition(positions, before)
      else FlushedFor(positions, before, symbol)
  }

  /** The history the replay of each reported symbol reads. */
  function SeenHistories(positions: PositionTable, rows: seq<BrokerPosition>, before: Stored, after: Stored,
                         rank: Rank): Histories {
    map s | s in (set r | r in rows :: r.symbol) ::
      OwnTrades(if FlushedFor(positions, rows, s) then after else before, rank, s)
  }

  function Seen(a: Account, snapshot: Snapshot, clock: Clock, rank: Rank): Histories {
    SeenHistories(a.positions, snapshot.positions, StoredBefore(a, snapshot), StoredAfter(a, snapshot, clock), rank)
  }

  /** Some fill is to be recorded whose order time is not a time of day. */
  ghost predicate Unreadable(ledger: seq<FillKey>, orders: Orders, fills: seq<BrokerFill>, clock: Clock) {
    exists i :: 0 <= i < |fills| && IsNew(ledger, orders, fills, i) && clock(fills[i].orderTime).None?
  }

  /** The snapshot cannot be projected: an open row does not add up, or a new fill has no readable time. */
  ghost predicate Unprojectable(a: Account, snapshot: Snapshot, clock: Clock) {
    || (exists row :: row in snapshot.open && !ValidOpenRow(row))
    || Unreadable(a.fills, ProjectedOrders(a.orders, snapshot.open, snapshot.fills), snapshot.fills, clock)
  }

  function ProjectedAccount(a: Account, snapshot: Snapshot, clock: Clock, rank: Rank): Account {
    var stored := StoredAfter(a, snapshot, clock);
    Account(stored.orders, a.unsent,
            ProjectedPositions(a.positions, snapshot.positions, Seen(a, snapshot, clock, rank)),
            stored.fills, stored.filledAt)
  }

  // ---------------------------------------------------------------- when fills were filled

  /** The fill is recorded by this projection. */
  predicate RecordedBy(a: Account, after: Account, key: FillKey) {
    key in after.fills && key !in a.fills
  }

  /** A fill gets the time of its order on the day of the snapshot that first reported it, and keeps it. */
  lemma TimesAreKept(a: Account, snapshot: Snapshot, clock: Clock, rank: Rank, key: FillKey)
    requires NoDuplicates(a.fills)
    ensures var after := ProjectedAccount(a, snapshot, clock, rank);
            && (key in a.fills ==> key in after.fills && TimeOf(after.filledAt, key) == TimeOf(a.filledAt, key))
            && (RecordedBy(a, after, key) && clock(key.fill.orderTime).Some? ==>
                  TimeOf(after.filledAt, key) == snapshot.date * 86400 + clock(key.fill.orderTime).value)
            && (RecordedBy(a, after, key) ==>
                  snapshot.date * 86400 <= TimeOf(after.filledAt, key) < (snapshot.date + 1) * 86400)
  {
    hide ProjectedOrders, Seen, ProjectedPositions, Eligible;
    var orders := ProjectedOrders(a.orders, snapshot.open, snapshot.fills);
    NewFillsAre(a.fills, orders, snapshot.fills, |snapshot.fills|);
    assert key == FillKey(key.fill, key.occurrence);
  }

  /**
   * Fills that a later day's snapshot reports first come after all that an earlier
   * day's did, in every later replay, whatever their times of day.
   */
  lemma EarlierDaysFirst(a: Account, first: Snapshot, second: Snapshot, clock: Clock, rank: Rank, k: FillKey,
                         l: FillKey)
    requires NoDuplicates(a.fills) && first.date < second.date
    ensures var once := ProjectedAccount(a, first, clock, rank);
            var twice := ProjectedAccount(once, second, clock, rank);
            RecordedBy(a, once, k) && RecordedBy(once, twice, l) ==>
              NotAfter(twice.filledAt, rank, k, l) && !NotAfter(twice.filledAt, rank, l, k)
  {
    hide ProjectedAccount, TimeOf, NoDuplicates;
    var once := ProjectedAccount(a, first, clock, rank);
    TimesAreKept(a, first, clock, rank, k);
    FillsStayDistinct(a, first, clock, rank);
    TimesAreKept(once, second, clock, rank, k);
    TimesAreKept(once, second, clock, rank, l);
  }

  lemma FillsStayDistinct(a: Account, snapshot: Snapshot, clock: Clock, rank: Rank)
    requires NoDuplicates(a.fills)
    ensures NoDuplicates(ProjectedAccount(a, snapshot, clock, rank).fills)
  {
    hide ProjectedOrders, Seen, ProjectedPositions, Record, NoDuplicates, Eligible;
    RecordIsRecorded(a.fills, ProjectedOrders(a.orders, snapshot.open, snapshot.fills), snapshot.fills);
  }

  // ---------------------------------------------------------------- projecting a snapshot again

  lemma ClosedKeepsTrader(order: Order, total: Option<int>)
    ensures var after := Projected(Some(order), None, total);
            after.Some? && after.value.requested == order.requested && SameTrader(after, Some(order))
  {
  }

  lemma OpenTakesTrader(order: Option<Order>, row: OpenRow, total: Option<int>)
    ensures var after := Projected(order, Some(row), total);
            && after.Some? && after.value.requested == row.requested
            && after.value.symbol == row.symbol && after.value.side == row.side
            && after.value.own == (order.Some? && order.value.own)
  {
  }

  lemma RequestedStays(order: Option<Order>, row: Option<OpenRow>, total: Option<int>)
    ensures var once := Projected(order, row, total);
            var twice := Projected(once, row, total);
            && once.Some? == twice.Some?
            && (once.Some? ==> once.value.requested == twice.value.requested)
            && SameTrader(once, twice)
  {
    hide Projected;
    if row.Some? {
      OpenTakesTrader(order, row.value, total);
      OpenTakesTrader(Projected(order, row, total), row.value, total);
    } else if order.Some? {
      ClosedKeepsTrader(order.value, total);
      ClosedKeepsTrader(Projected(order, row, total).value, total);
    } else {
      UnknownStays(total);
    }
  }

  /** The second projection touches no quantity asked for and nothing the replay reads. */
  lemma AgainSameOrders(orders: Orders, open: seq<OpenRow>, fills: seq<BrokerFill>)
    ensures var once := ProjectedOrders(orders, open, fills);
            var twice := ProjectedOrders(once, open, fills);
            && SameTraders(once, twice)
            && forall f :: Eligible(once, fills, f) <==> Eligible(twice, fills, f)
  {
    hide Projected, RowOf, TotalOf, ProjectedOrders;
    var once := ProjectedOrders(orders, open, fills);
    var twice := ProjectedOrders(once, open, fills);
    forall id
      ensures SameTrader(Get(once, id), Get(twice, id))
      ensures id in once <==> id in twice
      ensures id in once ==> once[id].requested == twice[id].requested
    {
      RequestedStays(Get(orders, id), RowOf(open, id), TotalOf(fills, id));
      assert Get(once, id) == Projected(Get(orders, id), RowOf(open, id), TotalOf(fills, id));
      assert Get(twice, id) == Projected(Get(once, id), RowOf(open, id), TotalOf(fills, id));
    }
  }

  /** Recording one snapshot again leaves fills and their times as they are. */
  lemma FillsRecordedOnce(a: Account, snapshot: Snapshot, clock: Clock, rank: Rank)
    requires NoDuplicates(a.fills)
    ensures var once := ProjectedAccount(a, snapshot, clock, rank);
            var twice := ProjectedAccount(once, snapshot, clock, rank);
            twice.fills == once.fills && twice.filledAt == once.filledAt && NoDuplicates(once.fills)
  {
    hide Projected, ProjectedOrders, ProjectedPositions, Eligible, SameTraders, Seen, FillTime, NewFills;
    var once := ProjectedAccount(a, snapshot, clock, rank);
    AgainSameOrders(a.orders, snapshot.open, snapshot.fills);
    RecordedOnce(a.fills, once.orders, ProjectedOrders(once.orders, snapshot.open, snapshot.fills), snapshot.fills);
    RecordIsRecorded(a.fills, once.orders, snapshot.fills);
  }

  lemma {:induction false} NoRowImports(orders: Orders, open: seq<OpenRow>)
    requires forall r :: r in open ==> r.id in orders
    ensures FlushedRows(orders, open) == 0
  {
    if open != [] {
      NoRowImports(orders, open[..|open| - 1]);
    }
  }

  lemma OpenedByNothing(orders: Orders)
    ensures OpenedOrders(orders, []) == orders
  {
    forall id
      ensures Get(OpenedOrders(orders, []), id) == Get(orders, id)
    {
    }
    SameGets(OpenedOrders(orders, []), orders);
  }

  lemma {:induction false} NothingFlushes(positions: PositionTable, rows: seq<BrokerPosition>, symbol: Symbol)
    requires forall r :: r in rows ==> r.symbol in positions
    ensures !FlushedFor(positions, rows, symbol)
  {
    if rows != [] {
      NothingFlushes(positions, rows[..|rows| - 1], symbol);
    }
  }

  /** Once every reported order and position has a row, all replays read exactly what earlier calls stored. */
  lemma KnownRowsReadStored(a: Account, snapshot: Snapshot, clock: Clock, rank: Rank)
    requires forall r :: r in snapshot.open ==> r.id in a.orders
    requires forall r :: r in snapshot.positions ==> r.symbol in a.positions
    ensures forall r :: r in snapshot.positions ==>
              History(Seen(a, snapshot, clock, rank), r.symbol) ==
                OwnTrades(Stored(a.orders, a.fills, a.filledAt), rank, r.symbol)
  {
    hide OwnTrades, StoredAfter, OpenedOrders, FlushedRows;
    NoRowImports(a.orders, snapshot.open);
    OpenedByNothing(a.orders);
    assert snapshot.open[..0] == [];
    forall r | r in snapshot.positions
      ensures !FlushedFor(a.positions, snapshot.positions, r.symbol)
    {
      NothingFlushes(a.positions, snapshot.positions, r.symbol);
    }
  }

  lemma ProjectionKnowsRows(a: Account, snapshot: Snapshot, clock: Clock, rank: Rank)
    ensures var once := ProjectedAccount(a, snapshot, clock, rank);
            && (forall r :: r in snapshot.open ==> r.id in once.orders)
            && (forall r :: r in snapshot.positions ==> r.symbol in once.positions)
  {
    hide Seen, Record, Timed, NewFills;
  }

  /** The trades of a symbol that the projection leaves stored. */
  function StoredTrades(a: Account, rank: Rank, symbol: Symbol): seq<Trade> {
    OwnTrades(Stored(a.orders, a.fills, a.filledAt), rank, symbol)
  }

  /** From the second projection on, every replay reads what the first one left stored. */
  lemma LaterReplaysAgree(a: Account, snapshot: Snapshot, clock: Clock, rank: Rank)
    requires NoDuplicates(a.fills)
    ensures var once := ProjectedAccount(a, snapshot, clock, rank);
            var twice := ProjectedAccount(once, snapshot, clock, rank);
            forall r :: r in snapshot.positions ==>
              && History(Seen(once, snapshot, clock, rank), r.symbol) == StoredTrades(once, rank, r.symbol)
              && History(Seen(twice, snapshot, clock, rank), r.symbol) == StoredTrades(once, rank, r.symbol)
  {
    hide Seen, ProjectedAccount, OwnTrades, SameTraders;
    var once := ProjectedAccount(a, snapshot, clock, rank);
    var twice := ProjectedAccount(once, snapshot, clock, rank);
    ProjectionKnowsRows(a, snapshot, clock, rank);
    ProjectionKnowsRows(once, snapshot, clock, rank);
    KnownRowsReadStored(once, snapshot, clock, rank);
    KnownRowsReadStored(twice, snapshot, clock, rank);
    FillsRecordedOnce(a, snapshot, clock, rank);
    AgainSameOrders(a.orders, snapshot.open, snapshot.fills);
    OrdersProjected(a, snapshot, clock, rank);
    OrdersProjected(once, snapshot, clock, rank);
    forall r | r in snapshot.positions
      ensures StoredTrades(twice, rank, r.symbol) == StoredTrades(once, rank, r.symbol)
    {
      SameOwnTrades(once.orders, twice.orders, once.fills, once.filledAt, rank, r.symbol);
    }
  }

  lemma OrdersProjected(a: Account, snapshot: Snapshot, clock: Clock, rank: Rank)
    ensures ProjectedAccount(a, snapshot, clock, rank).orders ==
              ProjectedOrders(a.orders, snapshot.open, snapshot.fills)
    ensures ProjectedAccount(a, snapshot, clock, rank).positions
         == ProjectedPositions(a.positions, snapshot.positions, Seen(a, snapshot, clock, rank))
    ensures ProjectedAccount(a, snapshot, clock, rank).unsent == a.unsent
  {
  }

  // ---------------------------------------------------------------- the positions of a repeated snapshot

  /**
   * The position of a reported row comes out the same from the fills stored
   * before and after recording the snapshot: either way the same part of it is
   * managed, at the same average price, or nothing of its own is stored at all.
   */
  predicate SameManagedPart(a: Account, snapshot: Snapshot, clock: Clock, rank: Rank, row: BrokerPosition) {
    var stored := Replayed(StoredTrades(ProjectedAccount(a, snapshot, clock, rank), rank, row.symbol));
    var seen := Replayed(History(Seen(a, snapshot, clock, rank), row.symbol));
    || stored.None?
    || ManagedProjection(None, row.quantity, stored) ==
         ManagedProjection(Get(a.positions, row.symbol), row.quantity, seen)
  }

  lemma HistoryElsewhere(position: Option<Position>, before: seq<Trade>, after: seq<Trade>)
    ensures ProjectedPosition(position, None, before) == ProjectedPosition(position, None, after)
  {
  }

  /** One position under a history that changed between two projections. */
  lemma PositionAfterNewHistory(position: Option<Position>, row: BrokerPosition, first: seq<Trade>, later: seq<Trade>)
    requires ValidHolding(row)
    ensures var once := ProjectedPosition(position, Some(row), first);
            ProjectedPosition(once, Some(row), later) == once
            <==> || Replayed(later).None?
                 || ManagedProjection(None, row.quantity, Replayed(later)) ==
                      ManagedProjection(position, row.quantity, Replayed(first))
  {
    hide Replay;
  }

  lemma PositionsChangeAgain(a: Account, snapshot: Snapshot, clock: Clock, rank: Rank, s: Symbol)
    requires WellFormed(snapshot) && NoDuplicates(a.fills)
    ensures var once := ProjectedAccount(a, snapshot, clock, rank);
            var twice := ProjectedAccount(once, snapshot, clock, rank);
            var row := HoldingOf(snapshot.positions, s);
            Get(twice.positions, s) == Get(once.positions, s)
            <==> row.None? || SameManagedPart(a, snapshot, clock, rank, row.value)
  {
    hide Seen, ProjectedAccount, ProjectedPosition, ManagedProjection, Replayed, StoredTrades, HoldingOf, NoDuplicates,
      DistinctIds, DistinctSymbols, ValidHolding;
    var once := ProjectedAccount(a, snapshot, clock, rank);
    OrdersProjected(a, snapshot, clock, rank);
    OrdersProjected(once, snapshot, clock, rank);
    LaterReplaysAgree(a, snapshot, clock, rank);
    var row := HoldingOf(snapshot.positions, s);
    var first, later := History(Seen(a, snapshot, clock, rank), s), History(Seen(once, snapshot, clock, rank), s);
    if row.Some? {
      PositionAfterNewHistory(Get(a.positions, s), row.value, first, later);
    } else {
      HistoryElsewhere(Get(once.positions, s), first, later);
      ProjectPositionTwice(Get(a.positions, s), None, first);
    }
  }

  lemma PositionsSettle(a: Account, snapshot: Snapshot, clock: Clock, rank: Rank)
    requires NoDuplicates(a.fills)
    ensures var twice := ProjectedAccount(ProjectedAccount(a, snapshot, clock, rank), snapshot, clock, rank);
            ProjectedAccount(twice, snapshot, clock, rank).positions == twice.positions
  {
    hide Seen, ProjectedAccount, ProjectedPosition, StoredTrades, HoldingOf, NoDuplicates;
    var once := ProjectedAccount(a, snapshot, clock, rank);
    var twice := ProjectedAccount(once, snapshot, clock, rank);
    var thrice := ProjectedAccount(twice, snapshot, clock, rank);
    OrdersProjected(once, snapshot, clock, rank);
    OrdersProjected(twice, snapshot, clock, rank);
    LaterReplaysAgree(a, snapshot, clock, rank);
    forall s
      ensures Get(thrice.positions, s) == Get(twice.positions, s)
    {
      var row := HoldingOf(snapshot.positions, s);
      var history := History(Seen(once, snapshot, clock, rank), s);
      ProjectPositionTwice(Get(once.positions, s), row, history);
      if row.None? {
        HistoryElsewhere(Get(twice.positions, s), history, History(Seen(twice, snapshot, clock, rank), s));
      }
    }
    SameGets(thrice.positions, twice.positions);
  }

  /**
   * Projecting one snapshot over and over is stable for orders, fills, their
   * times and positions after the second time; after the first exactly if no
   * order is reopened and every reported position has the same managed part
   * under the fills stored before and after.
   */
  lemma AccountReachesFixedPoint(a: Account, snapshot: Snapshot, clock: Clock, rank: Rank)
    requires WellFormed(snapshot) && NoDuplicates(a.fills)
    ensures var once := ProjectedAccount(a, snapshot, clock, rank);
            var twice := ProjectedAccount(once, snapshot, clock, rank);
            && ProjectedAccount(twice, snapshot, clock, rank) == twice
            && (twice == once <==>
                  && (forall id :: id in a.orders ==>
                        !Reopens(Get(a.orders, id), RowOf(snapshot.open, id), TotalOf(snapshot.fills, id)))
                  && (forall row :: row in snapshot.positions ==> SameManagedPart(a, snapshot, clock, rank, row)))
  {
    hide Seen, ProjectedAccount, ProjectedPosition, ProjectedOrders, ProjectedPositions, SameManagedPart, Reopens,
      RowOf, TotalOf, HoldingOf, NoDuplicates, WellFormed;
    var once := ProjectedAccount(a, snapshot, clock, rank);
    var twice := ProjectedAccount(once, snapshot, clock, rank);
    OrdersProjected(a, snapshot, clock, rank);
    OrdersProjected(once, snapshot, clock, rank);
    OrdersProjected(twice, snapshot, clock, rank);
    OrdersReachFixedPoint(a.orders, snapshot.open, snapshot.fills);
    FillsRecordedOnce(a, snapshot, clock, rank);
    FillsRecordedOnce(once, snapshot, clock, rank);
    PositionsSettle(a, snapshot, clock, rank);
    PositionsChangeExactly(a, snapshot, clock, rank);
  }

  lemma PositionsChangeExactly(a: Account, snapshot: Snapshot, clock: Clock, rank: Rank)
    requires WellFormed(snapshot) && NoDuplicates(a.fills)
    ensures var once := ProjectedAccount(a, snapshot, clock, rank);
            ProjectedAccount(once, snapshot, clock, rank).positions == once.positions
            <==> forall row :: row in snapshot.positions ==> SameManagedPart(a, snapshot, clock, rank, row)
  {
    hide Seen, ProjectedAccount, SameManagedPart, NoDuplicates;
    var once := ProjectedAccount(a, snapshot, clock, rank);
    var twice := ProjectedAccount(once, snapshot, clock, rank);
    SameGets(twice.positions, once.positions);
    forall s
      ensures Get(twice.positions, s) == Get(once.positions, s)
              <==> HoldingOf(snapshot.positions, s).None?
                   || SameManagedPart(a, snapshot, clock, rank, HoldingOf(snapshot.positions, s).value)
    {
      PositionsChangeAgain(a, snapshot, clock, rank, s);
    }
    forall row | row in snapshot.positions
      ensures HoldingOf(snapshot.positions, row.symbol) == Some(row)
    {
      HoldingIsFound(snapshot.positions, row);
    }
  }

  // ---------------------------------------------------------------- a snapshot without news of own orders

  /**
   * The snapshot brings no fill of an own order that is due and not recorded, and
   * calls each own order what its row does.
   */
  ghost predicate NoOwnNews(a: Account, snapshot: Snapshot) {
    var orders := ProjectedOrders(a.orders, snapshot.open, snapshot.fills);
    && (forall k :: k in NewFills(a.fills, orders, snapshot.fills, |snapshot.fills|) ==>
        !Owned(Get(a.orders, k.fill.id)))
    && (forall r :: r in snapshot.open && Owned(Get(a.orders, r.id)) ==>
          r.symbol == a.orders[r.id].symbol && r.side == a.orders[r.id].side)
  }

  lemma TraderStays(order: Option<Order>, row: Option<OpenRow>, total: Option<int>)
    requires row.Some? && Owned(order) ==> row.value.symbol == order.value.symbol && row.value.side == order.value.side
    ensures SameTrader(order, Opened(order, row)) && SameTrader(order, Projected(order, row, total))
  {
  }

  lemma TradersStay(orders: Orders, open: seq<OpenRow>, fills: seq<BrokerFill>)
    requires forall r :: r in open && Owned(Get(orders, r.id)) ==>
               r.symbol == orders[r.id].symbol && r.side == orders[r.id].side
    ensures SameTraders(orders, OpenedOrders(orders, open)) && SameTraders(orders, ProjectedOrders(orders, open, fills))
  {
    hide Opened, Projected, SameTrader, TotalOf;
    forall id
      ensures SameTrader(Get(orders, id), Get(OpenedOrders(orders, open), id))
      ensures SameTrader(Get(orders, id), Get(ProjectedOrders(orders, open, fills), id))
    {
      TraderStays(Get(orders, id), RowOf(open, id), TotalOf(fills, id));
    }
  }

  /** Without news of own orders every replay reads the same before and after the snapshot is recorded. */
  lemma QuietReplaysAgree(a: Account, snapshot: Snapshot, clock: Clock, rank: Rank, symbol: Symbol)
    requires NoDuplicates(a.fills) && NoOwnNews(a, snapshot)
    ensures OwnTrades(StoredBefore(a, snapshot), rank, symbol) == StoredTrades(a, rank, symbol)
    ensures OwnTrades(StoredAfter(a, snapshot, clock), rank, symbol) == StoredTrades(a, rank, symbol)
  {
    hide OwnTrades, ProjectedOrders, OpenedOrders, NewFills;
    var after := StoredAfter(a, snapshot, clock);
    var news := NewFills(a.fills, after.orders, snapshot.fills, |snapshot.fills|);
    var flushed := snapshot.open[..FlushedRows(a.orders, snapshot.open)];
    TradersStay(a.orders, flushed, snapshot.fills);
    TradersStay(a.orders, snapshot.open, snapshot.fills);
    SameOwnTrades(a.orders, OpenedOrders(a.orders, flushed), a.fills, a.filledAt, rank, symbol);
    forall k | k in news
      ensures k !in a.fills && !Owned(Get(after.orders, k.fill.id))
    {
      assert SameTrader(Get(a.orders, k.fill.id), Get(after.orders, k.fill.id));
      NewFillsAre(a.fills, after.orders, snapshot.fills, |snapshot.fills|);
      assert k == FillKey(k.fill, k.occurrence);
    }
    ForeignFillsIgnored(Stored(a.orders, a.fills, a.filledAt), after, news, rank, symbol);
  }

  /**
   * A snapshot without news of own orders needs to be projected only once,
   * whatever else it brings, exactly if it reopens no order.
   */
  lemma OnceIsEnoughExactly(a: Account, snapshot: Snapshot, clock: Clock, rank: Rank)
    requires WellFormed(snapshot) && NoDuplicates(a.fills) && NoOwnNews(a, snapshot)
    ensures var once := ProjectedAccount(a, snapshot, clock, rank);
            ProjectedAccount(once, snapshot, clock, rank) == once
            <==> forall id :: id in a.orders ==>
                   !Reopens(Get(a.orders, id), RowOf(snapshot.open, id), TotalOf(snapshot.fills, id))
  {
    hide ProjectedAccount, ProjectedOrders, SameManagedPart, Reopens, RowOf, TotalOf, NoDuplicates, WellFormed,
      NoOwnNews;
    AccountReachesFixedPoint(a, snapshot, clock, rank);
    forall row | row in snapshot.positions
      ensures SameManagedPart(a, snapshot, clock, rank, row)
    {
      QuietPartStays(a, snapshot, clock, rank, row);
    }
  }

  lemma QuietPartStays(a: Account, snapshot: Snapshot, clock: Clock, rank: Rank, row: BrokerPosition)
    requires NoDuplicates(a.fills) && NoOwnNews(a, snapshot) && row in snapshot.positions
    ensures SameManagedPart(a, snapshot, clock, rank, row)
  {
    hide OwnTrades, StoredBefore, StoredAfter, ProjectedPositions, Replayed, NoDuplicates, NoOwnNews;
    QuietReplaysAgree(a, snapshot, clock, rank, row.symbol);
    assert StoredTrades(ProjectedAccount(a, snapshot, clock, rank), rank, row.symbol)
        == OwnTrades(StoredAfter(a, snapshot, clock), rank, row.symbol);
    assert History(Seen(a, snapshot, clock, rank), row.symbol) == StoredTrades(a, rank, row.symbol);
  }

  // ---------------------------------------------------------------- the one projection that is late

  lemma OneFillRecorded(orders: Orders, fill: BrokerFill)
    requires fill.id in orders && fill.quantity <= orders[fill.id].requested
    ensures Record([], orders, [fill]) == [FillKey(fill, 0)]
  {
    assert [fill][..0] == [];
    assert TotalOf([fill], fill.id) == Some(fill.quantity);
    assert NewFills([], orders, [fill], 0) == [];
    assert IsNew([], orders, [fill], 0);
  }

  lemma OneFillReplayed(stored: Stored, rank: Rank, symbol: Symbol)
    requires |stored.fills| == 1 && OwnFill(stored.orders, stored.fills[0], symbol)
    ensures var key := stored.fills[0];
            OwnTrades(stored, rank, symbol) ==
              [Trade(stored.orders[key.fill.id].side, key.fill.quantity, key.fill.price)]
  {
    assert stored.fills[..0] == [];
    assert OwnKeys(stored.orders, stored.fills, symbol) == stored.fills;
    assert Sorted(stored.fills, stored.filledAt, rank) == stored.fills;
  }

  lemma FirstPositionSeesEarlierFills(a: Account, snapshot: Snapshot, clock: Clock, rank: Rank, row: BrokerPosition)
    requires snapshot.positions == [row] && a.fills == []
    ensures History(Seen(a, snapshot, clock, rank), row.symbol) == []
  {
    hide StoredAfter, OpenedOrders, FlushedRows;
    assert snapshot.positions[..0] == [];
  }

  lemma OneBuy(quantity: Lot, price: real)
    ensures Replay([Trade(Buy, quantity, price)]).quantity == quantity
  {
    assert [Trade(Buy, quantity, price)][..0] == [];
  }

  lemma OwnBuyTurnsManaged(row: BrokerPosition, quantity: Lot, price: real)
    requires ValidHolding(row) && row.quantity == quantity
    ensures var once := ProjectedPosition(None, Some(row), []).value;
            var twice := ProjectedPosition(Some(once), Some(row), [Trade(Buy, quantity, price)]).value;
            && once.managed == 0 && once.origin == External
            && twice.managed == quantity && twice.origin == CrestaManaged
  {
    OneBuy(quantity, price);
  }

  /** A filled own BUY that the first projection still takes for an external holding becomes managed by the second. */
  lemma OwnBuyIsManagedOneProjectionLate(clock: Clock, rank: Rank) returns (a: Account, snapshot: Snapshot)
    ensures WellFormed(snapshot) && NoDuplicates(a.fills)
    ensures var once := ProjectedAccount(a, snapshot, clock, rank);
            var twice := ProjectedAccount(once, snapshot, clock, rank);
            && "A" in once.positions && once.positions["A"].managed == 0 && once.positions["A"].origin == External
            && "A" in twice.positions && twice.positions["A"].managed == 10
               && twice.positions["A"].origin == CrestaManaged
  {
    hide Seen, ProjectedAccount, ProjectedPosition, Projected, OwnTrades, Record, ProjectedOrders, ProjectedPositions;
    var buy := Order(true, "A", "KRX", Buy, Limit, Some(100.0), 10, 0, 0, 10, Acknowledged, None, 1);
    var fill := BrokerFill("1", "A", Buy, 10, 100.0, 0.0, 0.0, "090000", "KRX");
    var row := BrokerPosition("A", 10, 10, 100.0);
    a := Account(map["1" := buy], [], map[], [], map[]);
    snapshot := Snapshot(0, [], [fill], [row]);
    var once := ProjectedAccount(a, snapshot, clock, rank);
    var twice := ProjectedAccount(once, snapshot, clock, rank);
    OwnBuyStored(a, snapshot, clock, rank, buy, fill);
    FirstPositionSeesEarlierFills(a, snapshot, clock, rank, row);
    LaterReplaysAgree(a, snapshot, clock, rank);
    assert row in snapshot.positions;
    OrdersProjected(a, snapshot, clock, rank);
    OrdersProjected(once, snapshot, clock, rank);
    HoldingIsFound(snapshot.positions, row);
    assert Get(once.positions, "A") == ProjectedPosition(None, Some(row), []);
    assert Get(twice.positions, "A") == ProjectedPosition(Get(once.positions, "A"), Some(row), [Trade(Buy, 10, 100.0)]);
    OwnBuyTurnsManaged(row, 10, 100.0);
    PositionPresent(Some(row), None, []);
    PositionPresent(Some(row), Get(once.positions, "A"), [Trade(Buy, 10, 100.0)]);
  }

  lemma PositionPresent(row: Option<BrokerPosition>, position: Option<Position>, history: seq<Trade>)
    ensures row.Some? ==> ProjectedPosition(position, row, history).Some?
  {
  }

  lemma OwnBuyStored(a: Account, snapshot: Snapshot, clock: Clock, rank: Rank, buy: Order, fill: BrokerFill)
    requires a.orders == map[fill.id := buy] && buy.own && buy.side == Buy && buy.requested == fill.quantity > 0
    requires a.fills == [] && snapshot.open == [] && snapshot.fills == [fill]
    ensures StoredTrades(ProjectedAccount(a, snapshot, clock, rank), rank, buy.symbol) ==
              [Trade(Buy, fill.quantity, fill.price)]
  {
    hide Seen, ProjectedPositions, Projected, Record, TotalOf, Timed, OwnTrades;
    var once := ProjectedAccount(a, snapshot, clock, rank);
    ClosedKeepsTrader(buy, TotalOf([fill], fill.id));
    assert Get(once.orders, fill.id) == Projected(Some(buy), None, TotalOf([fill], fill.id));
    OneFillRecorded(once.orders, fill);
    OneFillReplayed(Stored(once.orders, once.fills, once.filledAt), rank, buy.symbol);
  }
}
