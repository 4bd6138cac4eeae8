/** A concrete run of desk and broker in which a stop sells shares that were never bought through the desk. */
module BrokerDeskRuns {
  import opened Common
  import opened BrokerOrders
  import opened FillLedger
  import opened OwnFills
  import opened Positions
  import opened Reconciliation
  import opened AccountProjection
  import opened OrderCreation
  import opened Guards
  import opened StopTriggers
  import opened Approvals
  import opened OrderDesk
  import opened OrderDeskRuns
  import opened BrokerDesk
  import ManagedReplay

  const AT_ONCE := ASK_FIRST.(buy := Automatic)

  const BOUGHT := BrokerFill("1", "B", Buy, 100, 100.0, 0.0, 0.0, "090000", "KRX")

  const SOLD := BrokerFill("2", "B", Sell, 100, 90.0, 0.0, 0.0, "100000", "KRX")

  const MIXED := BrokerPosition("B", 150, 150, 100.0)

  const REST := BrokerPosition("B", 50, 50, 100.0)

  /** A hundred shares are the account's own, and fifty were there before. */
  const FIRST := Snapshot(0, [], [BOUGHT], [MIXED])

  /** The hundred are sold. */
  const SECOND := Snapshot(0, [], [BOUGHT, SOLD], [REST])

  const LESS_SOLD := SOLD.(quantity := 60)

  /** The broker takes back forty of them. */
  const THIRD := Snapshot(0, [], [BOUGHT, LESS_SOLD], [REST])

  predicate Readable(clock: Clock) {
    clock("090000") == Some(32400) && clock("100000") == Some(36000)
  }

  const BUY_ROW := NewRow(BuyRequest(BUY, 100.05, 100))

  lemma Buys(clock: Clock, rank: Rank)
    ensures var t := Apply(EMPTY_TABLES, DeskCall(RouteDecision(BUY, AT_ONCE, READY, ROOM)), clock, rank);
            && t == EMPTY_TABLES.(desk := t.desk) && t.desk.orders == [BUY_ROW]
            && t.desk.triggers == [] && t.desk.positions == map[]
  {
    hide EntryBlocked, BuyQuantity;
    RoomForHundred();
  }

  lemma SendsRow(t: Tables, i: Id, b: BrokerId, clock: Clock, rank: Rank)
    requires InStatus(t, i, Created) && i !in t.ids && b !in t.orders
    ensures var begun := Apply(t, BeginSend(i, true), clock, rank);
            var row := t.desk.orders[i];
            Apply(begun, FinishSend(i, true, Accepted(b, "KRX", None)), clock, rank) ==
            t.(desk := t.desk.(orders := t.desk.orders[i := row.(status := Acknowledged)]), ids := t.ids[i := b],
              orders := t.orders[b := AcceptedOrder(row, "KRX", None)])
  {
    hide OrderDesk.Step, ProjectedTables, Find, HasActive, Cancellable;
    var begun := Apply(t, BeginSend(i, true), clock, rank);
    var row := t.desk.orders[i];
    assert begun.desk.orders == t.desk.orders[i := row.(status := Submitting)];
    assert t.desk.orders[i := row.(status := Submitting)][i := row.(status := Acknowledged)]
        == t.desk.orders[i := row.(status := Acknowledged)];
  }

  // ---------------------------------------------------------------- the account

  const SENT := AcceptedOrder(BUY_ROW, "KRX", None)

  const FILLED := SENT.(filled := 100, remaining := 0, status := Filled, version := 5)

  const BUY_KEY := FillKey(BOUGHT, 0)

  const SELL_KEY := FillKey(SOLD, 0)

  const UNEXPLAINED := Position(150, 150, 100.0, 0, 0.0, Held, External, 1)

  const EXPLAINED := Position(150, 150, 100.0, 100, 100.0, Held, Mixed, 2)

  const LAGGING := Position(50, 50, 100.0, 50, 100.0, Held, CrestaManaged, 3)

  lemma OneFillTotal(f: BrokerFill)
    ensures TotalOf([f], f.id) == Some(f.quantity)
  {
    assert [f][..0] == [];
  }

  lemma BothTotals()
    ensures TotalOf([BOUGHT, SOLD], "1") == Some(100) && TotalOf([BOUGHT, SOLD], "2") == Some(100)
  {
    assert [BOUGHT, SOLD][..1] == [BOUGHT];
    OneFillTotal(BOUGHT);
  }

  lemma OrderAfter(orders: Orders, fills: seq<BrokerFill>, b: BrokerId)
    requires b in orders
    ensures ProjectedOrders(orders, [], fills).Keys == orders.Keys
    ensures ProjectedOrders(orders, [], fills)[b] == Projected(Some(orders[b]), None, TotalOf(fills, b)).value
  {
    hide FillsProjected, CancelProjected;
    assert Get(ProjectedOrders(orders, [], fills), b) == Projected(Get(orders, b), None, TotalOf(fills, b));
  }

  lemma FirstOrders(orders: Orders)
    requires orders == map["1" := SENT]
    ensures ProjectedOrders(orders, [], FIRST.fills) == map["1" := FILLED]
  {
    hide TotalOf, ProjectedOrders;
    OrderAfter(orders, FIRST.fills, "1");
    OneFillTotal(BOUGHT);
  }

  lemma FirstAccount(a: Account, clock: Clock, rank: Rank)
    requires Readable(clock)
    requires a.orders == map["1" := SENT] && a.fills == [] && a.filledAt == map[] && a.positions == map[]
    ensures var after := ProjectedAccount(a, FIRST, clock, rank);
            && after.orders == map["1" := FILLED] && after.fills == [BUY_KEY] && after.filledAt == map[BUY_KEY := 32400]
            && Get(after.positions, "B") == Some(UNEXPLAINED)
  {
    hide Seen, TotalOf, Record, OwnTrades, ProjectedOrders, NewFills, Projected;
    FirstOrders(a.orders);
    var orders := ProjectedOrders(a.orders, FIRST.open, FIRST.fills);
    OneFillRecorded(orders, BOUGHT);
    RecordAdds([], orders, FIRST.fills);
    PositionAfter(a, FIRST, clock, rank, MIXED);
    FirstPositionSeesEarlierFills(a, FIRST, clock, rank, MIXED);
  }

  lemma RecordAdds(ledger: seq<FillKey>, orders: Orders, fills: seq<BrokerFill>)
    ensures Record(ledger, orders, fills)[|ledger|..] == NewFills(ledger, orders, fills, |fills|)
  {
  }

  lemma BoughtReplayed(orders: Orders, filledAt: map<FillKey, int>, rank: Rank)
    requires "1" in orders && orders["1"] == FILLED
    ensures OwnTrades(Stored(orders, [BUY_KEY], filledAt), rank, "B") == [ManagedReplay.Trade(Buy, 100, 100.0)]
  {
    OneFillReplayed(Stored(orders, [BUY_KEY], filledAt), rank, "B");
  }

  lemma BoughtHeld()
    ensures ManagedReplay.Replayed([ManagedReplay.Trade(Buy, 100, 100.0)]) == Some(ManagedReplay.Managed(100, 100.0))
  {
    assert [ManagedReplay.Trade(Buy, 100, 100.0)][..0] == [];
  }

  lemma ExplainedBy(position: Option<Position>)
    requires position == Some(UNEXPLAINED)
    ensures ProjectedPosition(position, Some(MIXED), [ManagedReplay.Trade(Buy, 100, 100.0)]) == Some(EXPLAINED)
  {
    hide ManagedReplay.Replay;
    BoughtHeld();
  }

  lemma LagsBehind(position: Option<Position>)
    requires position == Some(EXPLAINED)
    ensures ProjectedPosition(position, Some(REST), [ManagedReplay.Trade(Buy, 100, 100.0)]) == Some(LAGGING)
  {
    hide ManagedReplay.Replay;
    BoughtHeld();
  }

  lemma NoNewBuy(orders: Orders)
    ensures NewFills([BUY_KEY], orders, [BOUGHT], 1) == []
  {
    assert [BOUGHT][..0] == [];
  }

  lemma AgainAccount(a: Account, clock: Clock, rank: Rank)
    requires a.orders == map["1" := FILLED] && a.fills == [BUY_KEY] && a.filledAt == map[BUY_KEY := 32400]
    requires Get(a.positions, "B") == Some(UNEXPLAINED)
    ensures var after := ProjectedAccount(a, FIRST, clock, rank);
            && after.orders == a.orders && after.fills == a.fills && after.filledAt == a.filledAt
            && Get(after.positions, "B") == Some(EXPLAINED)
  {
    hide Seen, TotalOf, OwnTrades, ProjectedOrders, NewFills, ProjectedPosition;
    OrderAfter(a.orders, FIRST.fills, "1");
    OneFillTotal(BOUGHT);
    NoNewBuy(ProjectedOrders(a.orders, FIRST.open, FIRST.fills));
    PositionAfter(a, FIRST, clock, rank, MIXED);
    KnownRowsReadStored(a, FIRST, clock, rank);
    assert MIXED in FIRST.positions;
    BoughtReplayed(a.orders, a.filledAt, rank);
    ExplainedBy(Get(a.positions, "B"));
  }

  /** The stop order as the projection knows it once it was sent. */
  predicate StopSent(order: Order) {
    order.own && order.symbol == "B" && order.side == Sell && order.requested == 100 && order.status == Acknowledged
  }

  lemma NewSale(orders: Orders)
    requires "2" in orders && orders["2"].requested == 100
    ensures NewFills([BUY_KEY], orders, [BOUGHT, SOLD], 2) == [SELL_KEY]
  {
    BothTotals();
    assert [BOUGHT, SOLD][..0] == [] && [BOUGHT, SOLD][..1] == [BOUGHT] && [BOUGHT][..0] == [];
    assert NewFills([BUY_KEY], orders, [BOUGHT, SOLD], 0) == [];
    assert NewFills([BUY_KEY], orders, [BOUGHT, SOLD], 1) == [];
  }

  /** The stop order once it was filled. */
  predicate SaleFilled(order: Order) {
    order.own && order.symbol == "B" && order.side == Sell
    && order.requested == order.filled == 100 && order.status == BrokerOrders.Filled
  }

  lemma SecondOrders(orders: Orders)
    requires orders.Keys == {"1", "2"} && orders["1"] == FILLED && StopSent(orders["2"])
    ensures var after := ProjectedOrders(orders, [], SECOND.fills);
            && after.Keys == {"1", "2"} && after["1"] == FILLED && SaleFilled(after["2"])
  {
    hide TotalOf, ProjectedOrders;
    OrderAfter(orders, SECOND.fills, "1");
    OrderAfter(orders, SECOND.fills, "2");
    BothTotals();
  }

  lemma SecondAccount(a: Account, clock: Clock, rank: Rank)
    requires Readable(clock) && a.orders.Keys == {"1", "2"} && a.orders["1"] == FILLED && StopSent(a.orders["2"])
    requires a.fills == [BUY_KEY] && a.filledAt == map[BUY_KEY := 32400] && Get(a.positions, "B") == Some(EXPLAINED)
    ensures var after := ProjectedAccount(a, SECOND, clock, rank);
            && after.orders.Keys == {"1", "2"} && after.orders["1"] == FILLED && SaleFilled(after.orders["2"])
            && after.fills == [BUY_KEY, SELL_KEY] && after.filledAt == map[BUY_KEY := 32400, SELL_KEY := 36000]
            && Get(after.positions, "B") == Some(LAGGING)
  {
    hide Seen, TotalOf, OwnTrades, ProjectedOrders, ProjectedPositions, NewFills, Projected;
    SecondOrders(a.orders);
    NewSale(ProjectedOrders(a.orders, SECOND.open, SECOND.fills));
    SecondPosition(a, clock, rank);
  }

  lemma SecondPosition(a: Account, clock: Clock, rank: Rank)
    requires "1" in a.orders && a.orders["1"] == FILLED && a.fills == [BUY_KEY]
             && Get(a.positions, "B") == Some(EXPLAINED)
    ensures Get(ProjectedAccount(a, SECOND, clock, rank).positions, "B") == Some(LAGGING)
  {
    hide ProjectedAccount, Seen, OwnTrades, ProjectedPosition;
    PositionAfter(a, SECOND, clock, rank, REST);
    KnownRowsReadStored(a, SECOND, clock, rank);
    assert REST in SECOND.positions;
    BoughtReplayed(a.orders, a.filledAt, rank);
    LagsBehind(Get(a.positions, "B"));
  }

  lemma NothingOwnLeft(stored: Stored, rank: Rank)
    requires stored.orders.Keys == {"1", "2"} && stored.orders["1"] == FILLED
    requires SaleFilled(stored.orders["2"])
    requires stored.fills == [BUY_KEY, SELL_KEY] && stored.filledAt == map[BUY_KEY := 32400, SELL_KEY := 36000]
    ensures OwnTrades(stored, rank, "B") == BUY_THEN_SELL
    ensures ManagedReplay.Replay(OwnTrades(stored, rank, "B")).quantity == 0
  {
    hide OwnKeys, Sorted, Trades, ManagedReplay.Replay;
    BothKeysRead(stored.orders, stored.filledAt, rank);
    BothTrades(stored.orders);
    BoughtAndSold();
  }

  lemma BothKeysRead(orders: Orders, filledAt: map<FillKey, int>, rank: Rank)
    requires orders.Keys == {"1", "2"} && orders["1"] == FILLED && orders["2"].own && orders["2"].symbol == "B"
    requires filledAt == map[BUY_KEY := 32400, SELL_KEY := 36000]
    ensures Sorted(OwnKeys(orders, [BUY_KEY, SELL_KEY], "B"), filledAt, rank) == [BUY_KEY, SELL_KEY]
  {
    hide Sorted, NotAfter;
    var keys := [BUY_KEY, SELL_KEY];
    assert keys[..1] == [BUY_KEY] && [BUY_KEY][..0] == [];
    assert OwnKeys(orders, [BUY_KEY], "B") == [BUY_KEY];
    assert OwnKeys(orders, keys, "B") == keys;
    BothKeysSorted(filledAt, rank);
  }

  lemma BothKeysSorted(filledAt: map<FillKey, int>, rank: Rank)
    requires filledAt == map[BUY_KEY := 32400, SELL_KEY := 36000]
    ensures Sorted([BUY_KEY, SELL_KEY], filledAt, rank) == [BUY_KEY, SELL_KEY]
  {
    assert [BUY_KEY, SELL_KEY][..1] == [BUY_KEY] && [BUY_KEY][..0] == [];
    assert Sorted([BUY_KEY], filledAt, rank) == [BUY_KEY];
    assert NotAfter(filledAt, rank, BUY_KEY, SELL_KEY);
  }

  const BUY_THEN_SELL: seq<ManagedReplay.Trade> := [ManagedReplay.Trade(Buy, 100, 100.0),
                                                    ManagedReplay.Trade(Sell, 100, 90.0)]

  lemma BothTrades(orders: Orders)
    requires orders.Keys == {"1", "2"} && orders["1"] == FILLED
    requires orders["2"].own && orders["2"].symbol == "B" && orders["2"].side == Sell
    ensures OwnFill(orders, BUY_KEY, "B") && OwnFill(orders, SELL_KEY, "B")
    ensures Trades(orders, [BUY_KEY, SELL_KEY], "B") == BUY_THEN_SELL
  {
  }

  lemma BoughtAndSold()
    ensures ManagedReplay.Replay(BUY_THEN_SELL).quantity == 0
  {
    assert BUY_THEN_SELL[..1] == [ManagedReplay.Trade(Buy, 100, 100.0)];
    BoughtHeld();
  }

  // ---------------------------------------------------------------- the run

  lemma Projects(t: Tables, snapshot: Snapshot, clock: Clock, rank: Rank)
    requires Readable(clock) && (snapshot == FIRST || snapshot == SECOND || snapshot == THIRD)
    ensures var next := Apply(t, Project(snapshot), clock, rank);
            var a := ProjectedAccount(AccountOf(t), snapshot, clock, rank);
            && next == Tables(t.desk.(orders := next.desk.orders, positions := a.positions), t.ids, a.orders, a.fills,
                              a.filledAt)
            && |next.desk.orders| == |t.desk.orders|
            && forall i :: 0 <= i < |t.desk.orders| ==> next.desk.orders[i] == ReflectedAt(t, a.orders, i)
  {
    hide ProjectedAccount, ReflectedAt, Projectable;
    assert Imports(t.orders, snapshot.open) == [];
    IsProjectable(t, snapshot, clock);
  }

  lemma IsProjectable(t: Tables, snapshot: Snapshot, clock: Clock)
    requires Readable(clock) && (snapshot == FIRST || snapshot == SECOND || snapshot == THIRD)
    ensures Projectable(t, snapshot, clock)
  {
    hide IsNew, ProjectedOrders, AccountOf;
    assert Imports(t.orders, snapshot.open) == [];
  }

  lemma StopOfExplained(p: Position)
    requires p.managed > 0 && p.managedAverage == 100.0
    ensures ShouldTrigger(Some(90.0), StopPrice(p, -2.0))
  {
    StopOfHeld();
  }

  lemma StopFires(d: Desk)
    requires "B" in d.positions
    requires var p := d.positions["B"];
             p.state == Held && p.quantity > 0 && 0 < p.managed <= p.available && p.managedAverage == 100.0
    requires forall i :: 0 <= i < |d.orders| ==> !Active(d.orders[i].status) && d.orders[i].key != StopKey(|d.triggers|)
    requires forall i :: 0 <= i < |d.triggers| ==> d.triggers[i].state == Fulfilled
    ensures var after := OrderDesk.Step(d, EvaluateStop("B", STOP, FALLEN));
            var n := |d.orders|;
            && after == d.(orders := after.orders, triggers := after.triggers, events := after.events)
            && |after.orders| == n + 1 && after.orders[..n] == d.orders
            && after.orders[n].side == Sell && after.orders[n].symbol == "B" && after.orders[n].status == Created
            && Own(after.orders[n]) && after.orders[n].key == StopKey(|d.triggers|)
            && after.orders[n].quantity == d.positions["B"].managed
            && |after.triggers| == |d.triggers| + 1
            && forall i :: 0 <= i < |after.triggers| ==> after.triggers[i].state == Fulfilled
  {
    hide EvaluatePosition, Route, Approve, RecoverExit, StopPrice, ShouldTrigger, ExpireStale, Reject;
    var p := d.positions["B"];
    StopOfExplained(p);
    EvaluationSellsExactly(BoardOf(d), "B", p, STOP, FALLEN);
    EndedRowsEvaluated(BoardOf(d), "B", p, STOP, FALLEN);
    StopSellsManagedPart(d, "B", STOP, FALLEN);
  }

  /** After the buy was filled and two snapshots were seen. */
  predicate Explained(t: Tables) {
    && t.ids == map[0 := "1"] && t.orders == map["1" := FILLED]
    && t.fills == [BUY_KEY] && t.filledAt == map[BUY_KEY := 32400] && Get(t.desk.positions, "B") == Some(EXPLAINED)
    && t.desk.triggers == [] && |t.desk.orders| == 1
    && t.desk.orders[0].key == BuyKey(0) && t.desk.orders[0].status == BrokerOrders.Filled
  }

  lemma BuysAndExplains(clock: Clock, rank: Rank) returns (calls: seq<Call>)
    requires Readable(clock)
    ensures Explained(Reached(calls, clock, rank))
  {
    hide Apply, ProjectedAccount, RouteBlocked, OrderDesk.Step;
    var route := DeskCall(RouteDecision(BUY, AT_ONCE, READY, ROOM));
    var begin, finish := BeginSend(0, true), FinishSend(0, true, Accepted("1", "KRX", None));
    var t1 := Apply(EMPTY_TABLES, route, clock, rank);
    Buys(clock, rank);
    var t2 := Apply(t1, begin, clock, rank);
    var t3 := Apply(t2, finish, clock, rank);
    SendsRow(t1, 0, "1", clock, rank);
    var t4 := Apply(t3, Project(FIRST), clock, rank);
    Projects(t3, FIRST, clock, rank);
    FirstAccount(AccountOf(t3), clock, rank);
    var t5 := Apply(t4, Project(FIRST), clock, rank);
    Projects(t4, FIRST, clock, rank);
    AgainAccount(AccountOf(t4), clock, rank);
    calls := [route, begin, finish, Project(FIRST), Project(FIRST)];
    assert [] + calls == calls;
    FiveCalls(route, begin, finish, Project(FIRST), Project(FIRST), [], clock, rank);
  }

  lemma FiveCalls(a: Call, b: Call, c: Call, d: Call, e: Call, before: seq<Call>, clock: Clock, rank: Rank)
    ensures var t := Reached(before, clock, rank);
            Reached(before + [a, b, c, d, e], clock, rank)
            == Apply(Apply(Apply(Apply(Apply(t, a, clock, rank), b, clock, rank), c, clock, rank), d, clock, rank), e,
                     clock, rank)
  {
    hide Apply;
    OneCall(before, a, clock, rank);
    OneCall(before + [a], b, clock, rank);
    OneCall(before + [a] + [b], c, clock, rank);
    OneCall(before + [a] + [b] + [c], d, clock, rank);
    OneCall(before + [a] + [b] + [c] + [d], e, clock, rank);
    assert before + [a, b, c, d, e] == before + [a] + [b] + [c] + [d] + [e];
  }

  lemma OneCall(before: seq<Call>, call: Call, clock: Clock, rank: Rank)
    ensures Reached(before + [call], clock, rank) == Apply(Reached(before, clock, rank), call, clock, rank)
  {
    hide Apply;
    assert (before + [call])[..|before|] == before;
  }

  /** After the stop sold the hundred shares and its order was sent. */
  predicate SaleSent(t: Tables) {
    && t.ids == map[0 := "1", 1 := "2"]
    && t.orders.Keys == {"1", "2"} && t.orders["1"] == FILLED && StopSent(t.orders["2"])
    && t.fills == [BUY_KEY] && t.filledAt == map[BUY_KEY := 32400] && Get(t.desk.positions, "B") == Some(EXPLAINED)
    && |t.desk.triggers| == 1 && t.desk.triggers[0].state == Fulfilled
    && |t.desk.orders| == 2 && t.desk.orders[0].key == BuyKey(0)
    && t.desk.orders[1].key == StopKey(0) && Own(t.desk.orders[1])
  }

  lemma SellsOwnShares(t: Tables, clock: Clock, rank: Rank)
    requires Explained(t)
    ensures var stopped := Apply(t, DeskCall(EvaluateStop("B", STOP, FALLEN)), clock, rank);
            var begun := Apply(stopped, BeginSend(1, true), clock, rank);
            SaleSent(Apply(begun, FinishSend(1, true, Accepted("2", "KRX", None)), clock, rank))
  {
    hide Apply, OrderDesk.Step;
    StopCall(t, clock, rank);
    StopFires(t.desk);
    SendsRow(Apply(t, DeskCall(EvaluateStop("B", STOP, FALLEN)), clock, rank), 1, "2", clock, rank);
  }

  /** After both sales, the first one filled and the second one not sent yet. */
  predicate SoldTwice(t: Tables) {
    && t.ids == map[0 := "1", 1 := "2"] && t.orders.Keys == {"1", "2"} && SaleFilled(t.orders["2"])
    && |t.desk.orders| == 3 && Own(t.desk.orders[1]) && ActiveOwnSale(t.desk.orders[2])
       && t.desk.orders[2].symbol == "B"
  }

  /** After the snapshot that reports the sale. */
  predicate SaleSeen(t: Tables) {
    && t.ids == map[0 := "1", 1 := "2"]
    && t.orders.Keys == {"1", "2"} && t.orders["1"] == FILLED && SaleFilled(t.orders["2"])
    && t.fills == [BUY_KEY, SELL_KEY] && t.filledAt == map[BUY_KEY := 32400, SELL_KEY := 36000]
    && Get(t.desk.positions, "B") == Some(LAGGING)
    && |t.desk.triggers| == 1 && t.desk.triggers[0].state == Fulfilled
    && |t.desk.orders| == 2 && t.desk.orders[0].key == BuyKey(0)
    && t.desk.orders[1].key == StopKey(0) && Own(t.desk.orders[1])
    && forall i :: 0 <= i < 2 ==> t.desk.orders[i].status == BrokerOrders.Filled
  }

  lemma SeesSale(t: Tables, clock: Clock, rank: Rank)
    requires Readable(clock) && SaleSent(t)
    ensures SaleSeen(Apply(t, Project(SECOND), clock, rank))
  {
    hide Apply, ProjectedAccount;
    Projects(t, SECOND, clock, rank);
    SecondAccount(AccountOf(t), clock, rank);
  }

  lemma SellsForeignShares(t: Tables, clock: Clock, rank: Rank)
    requires SaleSeen(t)
    ensures var sold := Apply(t, DeskCall(EvaluateStop("B", STOP, FALLEN)), clock, rank);
            && |sold.desk.orders| == 3 && sold.desk.orders[2].side == Sell && sold.desk.orders[2].symbol == "B"
            && sold.desk.orders[2].quantity == 50 && OwnShares(sold, rank, "B") == 0
            && SoldTwice(sold)
  {
    hide Apply, OrderDesk.Step, OwnTrades, ManagedReplay.Replay;
    StopCall(t, clock, rank);
    StopFires(t.desk);
    NothingOwnLeft(Stored(t.orders, t.fills, t.filledAt), rank);
  }

  /**
   * A stop sells the hundred own shares. The snapshot that reports the sale still
   * leaves fifty shares managed that never were the account's own, and the stop
   * that follows sells them.
   */
  lemma SecondStopSellsForeignShares(clock: Clock, rank: Rank) returns (calls: seq<Call>)
    requires Readable(clock)
    ensures var t := Reached(calls, clock, rank);
            && |t.desk.orders| == 3 && t.desk.orders[2].side == Sell && t.desk.orders[2].symbol == "B"
            && t.desk.orders[2].quantity == 50 && OwnShares(t, rank, "B") == 0 && SoldTwice(t)
  {
    hide Apply, Reached, OwnShares, Explained, SaleSent, SaleSeen, SoldTwice;
    calls := BuysAndExplains(clock, rank);
    var t := Reached(calls, clock, rank);
    var stop := DeskCall(EvaluateStop("B", STOP, FALLEN));
    var begin, finish := BeginSend(1, true), FinishSend(1, true, Accepted("2", "KRX", None));
    SellsOwnShares(t, clock, rank);
    var sent := Apply(Apply(Apply(t, stop, clock, rank), begin, clock, rank), finish, clock, rank);
    SeesSale(sent, clock, rank);
    SellsForeignShares(Apply(sent, Project(SECOND), clock, rank), clock, rank);
    FiveCalls(stop, begin, finish, Project(SECOND), stop, calls, clock, rank);
    calls := calls + [stop, begin, finish, Project(SECOND), stop];
  }

  lemma LessSoldTotal()
    ensures TotalOf(THIRD.fills, "2") == Some(60)
  {
    assert THIRD.fills[..1] == [BOUGHT] && [BOUGHT][..0] == [];
  }

  lemma SaleTakenBack(order: Order, row: OrderRow)
    requires SaleFilled(order) && Own(row)
    ensures TakesBack(order, None, Some(60))
    ensures var after := Reflected(row, Projected(Some(order), None, Some(60)).value);
            ActiveOwnSale(after) && after.symbol == "B"
  {
  }

  lemma TakesFillsBack(t: Tables, clock: Clock, rank: Rank)
    requires Readable(clock) && SoldTwice(t)
    ensures !NothingTakenBack(t, THIRD)
    ensures var rows := Apply(t, Project(THIRD), clock, rank).desk.orders;
            && |rows| == 3 && rows[1].symbol == rows[2].symbol == "B"
            && ActiveOwnSale(rows[1]) && ActiveOwnSale(rows[2])
  {
    hide Apply, ProjectedAccount, TotalOf, ProjectedOrders, Projected, TakesBack, Reflected, ActiveOwnSale, SaleFilled;
    var order, row := t.orders["2"], t.desk.orders[1];
    SaleTakenBack(order, row);
    LessSoldTotal();
    assert !NothingTakenBack(t, THIRD) by {
      assert 1 in t.ids && TakesBack(order, RowOf(THIRD.open, "2"), TotalOf(THIRD.fills, "2"));
    }
    Projects(t, THIRD, clock, rank);
    OrdersProjected(AccountOf(t), THIRD, clock, rank);
    OrderAfter(t.orders, THIRD.fills, "2");
  }

  /** A snapshot that reports fewer fills of a filled sale does leave two active own sales of one symbol. */
  lemma TakenBackLeavesTwoSales(clock: Clock, rank: Rank) returns (calls: seq<Call>)
    requires Readable(clock)
    ensures !OneSaleEach(Reached(calls, clock, rank).desk.orders) && !NothingEverTakenBack(calls, clock, rank)
  {
    hide Apply, Reached, NothingTakenBack, SoldTwice, OwnShares, NothingEverTakenBack;
    var before := SecondStopSellsForeignShares(clock, rank);
    TakesFillsBack(Reached(before, clock, rank), clock, rank);
    OneCall(before, Project(THIRD), clock, rank);
    calls := before + [Project(THIRD)];
    if NothingEverTakenBack(calls, clock, rank) {
      OneSaleUnlessTakenBack(calls, clock, rank);
    }
  }

  lemma StopCall(t: Tables, clock: Clock, rank: Rank)
    ensures Apply(t, DeskCall(EvaluateStop("B", STOP, FALLEN)), clock, rank)
         == t.(desk := OrderDesk.Step(t.desk, EvaluateStop("B", STOP, FALLEN)))
  {
    hide OrderDesk.Step, ProjectedTables, Find, HasActive, Cancellable;
  }
}
