/** Concrete runs of the order desk that reach what the theorems about it leave open. */
module OrderDeskRuns {
  import opened Common
  import opened BrokerOrders
  import opened Positions
  import opened OrderCreation
  import opened Guards
  import opened StopTriggers
  import opened Approvals
  import opened OrderDesk

  const HELD := Position(10, 10, 100.0, 10, 100.0, Held, CrestaManaged, 1)

  /** A quote a tenth of a percent wide, seen with the gate open. */
  const READY := Moment(0, Some(Quote(0, Some(99.95), Some(100.05), true, true, 0)), true, Some(Ready), true, true, 2)

  /** A quote below the stop of the position held. */
  const FALLEN := Moment(0, Some(Quote(1, Some(90.0), Some(90.1), true, true, 0)), true, Some(Ready), true, true, 2)

  /** A quote far above it. */
  const RISEN := Moment(0, Some(Quote(2, Some(150.0), Some(150.1), true, true, 0)), true, Some(Ready), true, true, 2)

  const BUY := Decision(0, true, "B", Krx, Enter, 60, None)

  const ASK_FIRST := RouteSetting(None, None, ManualApproval, Disabled, Disabled, Automatic, true)

  const ROOM := Entry(Some(10005.0), 0.0, 0.0, 20000.0, 20000.0, true, false, None, 0.3, None, 1.0)

  /** The stop without a policy row. */
  const STOP := StopSetting(None, -2.0, true)

  lemma NarrowSpread()
    ensures SpreadPct(READY.quote) == Some(0.1)
  {
    assert (99.95 + 100.05) / 2.0 == 100.0;
    assert (100.05 - 99.95) / 100.0 * 100.0 == 0.1;
    assert (0.1 * 10000.0).Floor == 1000;
  }

  lemma RoomForHundred()
    ensures BuyQuantity(ROOM.amount, Ask(READY)) == 100
    ensures EntryBlocked(BUY, READY, ROOM).None?
  {
    assert 10005.0 / 100.05 == 100.0;
    NarrowSpread();
  }

  /** A BUY decision that asks the user, with an empty book. */
  lemma AskedOnce(d: Desk) returns (after: Desk)
    requires d.orders == [] && d.approvals == [] && d.executions == map[]
    ensures after == Step(d, RouteDecision(BUY, ASK_FIRST, READY, ROOM)) && after.triggers == d.triggers
            && after.orders == []
    ensures |after.approvals| == 1 && after.approvals[0].execution in after.executions
    ensures after.approvals[0] ==
              Approval(KeyFor(BUY, ASK_FIRST), BUY, Scope(Some(100.05), 100, None), 60, Awaiting, None, None, 1)
  {
    hide EntryBlocked, BuyQuantity;
    RoomForHundred();
    after := Step(d, RouteDecision(BUY, ASK_FIRST, READY, ROOM));
  }

  lemma AskedThenApproved(d: Desk, key: Key) returns (after: Desk)
    requires d.orders == [] && d.approvals == [] && d.executions == map[]
    ensures after == Step(Step(d, RouteDecision(BUY, ASK_FIRST, READY, ROOM)), ApproveApproval(0, key, READY, ROOM))
    ensures after.triggers == d.triggers && |after.orders| == 1 && after.orders[0].key == key
  {
    hide Route, EntryBlocked;
    var asked := AskedOnce(d);
    RoomForHundred();
    assert DeviationOk(Some(100.05), Some(100.05), 1.0);
    after := Step(asked, ApproveApproval(0, key, READY, ROOM));
    assert after.orders == [NewRow(ApprovalRequest(0, asked.approvals[0], key, READY))];
  }

  lemma StopOfHeld()
    ensures StopPrice(HELD, -2.0) == 98.0 && Fires(HELD, STOP, FALLEN) && !Fires(HELD, STOP, RISEN)
  {
    assert 100.0 * (1.0 + -2.0 / 100.0) == 98.0;
    assert (98.0 * 10000.0 + 0.5).Floor == 980000;
  }

  lemma StopWaits(d: Desk) returns (after: Desk)
    requires d.orders == [] && d.triggers == [] && d.events == [] && d.approvals == [] && d.executions == map[]
    requires d.positions == map["A" := HELD]
    ensures after == Step(d, EvaluateStop("A", STOP, FALLEN.(gate := Some(GateReconciling))))
    ensures |after.triggers| == 1 && after.triggers[0].state == ExitPending
    ensures after.orders == [] && after.approvals == [] && after.executions == map[]
  {
    after := Step(d, EvaluateStop("A", STOP, FALLEN.(gate := Some(GateReconciling))));
    StopOfHeld();
  }

  /** The key alone does not show it: an approval can be given a trigger's key, and the trigger stays unfulfilled. */
  lemma KeyAloneIsNotFulfilment() returns (ops: seq<Op>)
    ensures var d := Run(EMPTY, ops);
            |d.triggers| == 1 && Find(d.orders, StopKey(0)).Some? && d.triggers[0].state != Fulfilled
  {
    hide EvaluatePosition, Route, Approve, RecoverExit;
    var arrive := Outside([], map["A" := HELD]);
    var stop := EvaluateStop("A", STOP, FALLEN.(gate := Some(GateReconciling)));
    var ask := RouteDecision(BUY, ASK_FIRST, READY, ROOM);
    var d1 := Step(EMPTY, arrive);
    assert d1.orders == [] && d1.triggers == [] && d1.positions == map["A" := HELD];
    var d2 := StopWaits(d1);
    var d4 := AskedThenApproved(d2, StopKey(0));
    ops := [arrive, stop, ask, ApproveApproval(0, StopKey(0), READY, ROOM)];
    assert ops[..3] == [arrive, stop, ask] && ops[..3][..2] == [arrive, stop] && ops[..3][..2][..1] == [arrive];
    assert Run(EMPTY, [arrive]) == d1;
    assert Run(EMPTY, [arrive, stop]) == d2;
    assert Run(EMPTY, [arrive, stop, ask]) == Step(d2, ask);
  }

  /** A BUY asked for at second 0 with a minute to decide, approved at second 60: its execution stays pending. */
  lemma ExpiredApprovalWithPendingExecution() returns (ops: seq<Op>)
    ensures var d := Run(EMPTY, ops);
            && |d.approvals| > 0 && d.approvals[0].state == Lapsed
            && d.approvals[0].execution in d.executions
               && d.executions[d.approvals[0].execution].state == ApprovalPending
  {
    hide EvaluatePosition, RecoverExit, Approve, Reject, Route;
    var ask := RouteDecision(BUY, ASK_FIRST, READY, ROOM);
    var late := ApproveApproval(0, FreeKey("late"), READY.(now := 60), ROOM);
    var asked := AskedOnce(EMPTY);
    ops := [ask, late];
    assert ops[..1] == [ask];
    assert Run(EMPTY, [ask]) == asked by {
      assert [ask][..0] == [];
    }
    RunKeepsFromEmpty([ask]);
    StepLapses(asked, late, 0);
    ScopesStay([ask], late, 0);
    assert [ask] + [late] == ops;
  }

  /** A stop sells the position; its order is rejected outside, and the unchanged position version is sold again. */
  lemma SecondStopOrderOfOneVersion() returns (ops: seq<Op>)
    ensures var d := Run(EMPTY, ops);
            && d.positions == map["A" := HELD]
            && |d.triggers| == 2 && d.triggers[0].version == d.triggers[1].version == HELD.version
            && d.triggers[0].symbol == d.triggers[1].symbol == "A"
            && |d.orders| == 2 && OrderedBy(d.orders[0], 0) && OrderedBy(d.orders[1], 1)
  {
    hide EvaluatePosition, Route, Approve, RecoverExit, Reject, BuyQuantity;
    var arrive, fire := Outside([], map["A" := HELD]), EvaluateStop("A", STOP, FALLEN);
    var d1 := Step(EMPTY, arrive);
    assert d1.orders == [] && d1.triggers == [] && d1.positions == map["A" := HELD];
    var d2 := StopSells(d1);
    var rejected := [d2.orders[0].(status := Rejected)];
    var refuse := Outside(rejected, d2.positions);
    var d3 := Step(d2, refuse);
    assert d3.orders == rejected;
    var d4 := StopSells(d3);
    ops := [arrive, fire, refuse, fire];
    assert ops[..3] == [arrive, fire, refuse] && ops[..3][..2] == [arrive, fire] && ops[..3][..2][..1] == [arrive];
    assert Run(EMPTY, [arrive]) == d1;
    assert Run(EMPTY, [arrive, fire]) == d2;
    assert Run(EMPTY, [arrive, fire, refuse]) == d3;
  }

  lemma StopSells(d: Desk) returns (after: Desk)
    requires d.positions == map["A" := HELD]
    requires |d.orders| == |d.triggers| <= 1
    requires forall t :: 0 <= t < |d.triggers| ==>
               d.triggers[t].state == Fulfilled && d.triggers[t].symbol == "A" && d.triggers[t].version == 1
    requires forall i :: 0 <= i < |d.orders| ==>
               OrderedBy(d.orders[i], i) && d.orders[i].key == StopKey(i) && !Active(d.orders[i].status)
    ensures after == Step(d, EvaluateStop("A", STOP, FALLEN)) && after.positions == d.positions
    ensures |after.triggers| == |d.triggers| + 1 && |after.orders| == |d.orders| + 1
            && after.orders[..|d.orders|] == d.orders
    ensures forall t :: 0 <= t < |after.triggers| ==>
              after.triggers[t].state == Fulfilled && after.triggers[t].symbol == "A" && after.triggers[t].version == 1
    ensures forall i :: 0 <= i < |after.orders| ==> OrderedBy(after.orders[i], i)
    ensures |d.orders| == 0 ==> after.orders[0].key == StopKey(0)
    ensures after.orders[|d.orders|].symbol == "A" && after.orders[|d.orders|].status == Created
  {
    hide EvaluatePosition, Route, Approve, RecoverExit, StopPrice, ShouldTrigger, TriggersAdvance;
    after := Step(d, EvaluateStop("A", STOP, FALLEN));
    StopOfHeld();
    EvaluationSellsExactly(BoardOf(d), "A", HELD, STOP, FALLEN);
    EndedRowsEvaluated(BoardOf(d), "A", HELD, STOP, FALLEN);
    EvaluateOrders(BoardOf(d), "A", HELD, STOP, FALLEN);
  }

  /**
   * While the stop's own order is under way, the next tick leaves a second trigger of
   * the version with its exit pending.
   */
  lemma StopWaitsForItsOrder(d: Desk) returns (after: Desk)
    requires d.positions == map["A" := HELD] && |d.orders| == |d.triggers| == 1
    requires d.triggers[0].state == Fulfilled
    requires d.orders[0].symbol == "A" && Active(d.orders[0].status)
    ensures after == Step(d, EvaluateStop("A", STOP, FALLEN)) && after.positions == d.positions
            && after.orders == d.orders
    ensures |after.triggers| == 2 && after.triggers[0] == d.triggers[0]
    ensures after.triggers[1].state == ExitPending && after.triggers[1].symbol == "A"
    ensures after.triggers[1].version == 1 && after.triggers[1].policy == None
  {
    hide Emit, StopPrice, ShouldTrigger, StopBlocked, Route, Approve, RecoverExit, Reject, ExpireStale;
    StopOfHeld();
    SaleGoesExactly(d.orders, "A", HELD, FALLEN);
    assert HasActive(d.orders, "A");
    NothingStale(BoardOf(d), "A", None, 1);
    after := Step(d, EvaluateStop("A", STOP, FALLEN));
  }

  /** The pending exit sells at any bid, whether a tick or the recovery finds it. */
  lemma PendingExitSells(d: Desk, last: Op)
    requires d.positions == map["A" := HELD] && |d.orders| == 1 && |d.triggers| == 2
    requires d.triggers[0].state == Fulfilled && d.triggers[1].state == ExitPending
    requires d.triggers[1].symbol == "A" && d.triggers[1].version == 1 && d.triggers[1].policy == None
    requires !Active(d.orders[0].status) && d.orders[0].key == StopKey(0)
    requires last == EvaluateStop("A", STOP, RISEN) || last == RecoverStop(1, STOP, RISEN)
    ensures var after := Step(d, last);
            && after.positions == d.positions && |after.triggers| == 2 && |after.orders| == 2
            && after.orders[0] == d.orders[0] && OrderedBy(after.orders[1], 1)
            && after.triggers[0] == d.triggers[0] && after.triggers[1].version == 1 && after.triggers[1].symbol == "A"
  {
    hide Judge, StopPrice, ShouldTrigger, Route, Approve, Reject, ExpireStale;
    ReEvaluationSellsExactly(BoardOf(d), 1, HELD, STOP, RISEN);
    JudgeMoves(BoardOf(d), 1, HELD, STOP, RISEN);
    assert FindLive(d.triggers, "A", 1, None) == Some(1);
    var after := Step(d, last);
    assert after.orders[0] == after.orders[..1][0];
  }

  /**
   * A stop sells; the next tick raises a second trigger of the same position
   * version, which waits for the first order; the order is rejected outside, and
   * far above the stop the waiting trigger sells the unchanged version again.
   */
  lemma SecondStopOrderAboveStop(last: Op) returns (ops: seq<Op>)
    requires last == EvaluateStop("A", STOP, RISEN) || last == RecoverStop(1, STOP, RISEN)
    ensures !Fires(HELD, STOP, RISEN)
    ensures var before, after := Run(EMPTY, ops), Run(EMPTY, ops + [last]);
            && before.positions == after.positions == map["A" := HELD]
            && |before.triggers| == |after.triggers| == 2
            && after.triggers[0].version == after.triggers[1].version == HELD.version
            && after.triggers[0].symbol == after.triggers[1].symbol == "A"
            && |before.orders| == 1 && |after.orders| == 2
            && OrderedBy(after.orders[0], 0) && OrderedBy(after.orders[1], 1)
  {
    hide Step, StopPrice, ShouldTrigger;
    var arrive, fire := Outside([], map["A" := HELD]), EvaluateStop("A", STOP, FALLEN);
    StopOfHeld();
    var d1 := Step(EMPTY, arrive);
    HoldingArrives();
    var d2 := StopSells(d1);
    var d3 := StopWaitsForItsOrder(d2);
    var rejected := [d3.orders[0].(status := Rejected)];
    var refuse := Outside(rejected, d3.positions);
    var d4 := Step(d3, refuse);
    RowsChange(d3, rejected);
    PendingExitSells(d4, last);
    ops := [arrive, fire, fire, refuse];
    assert ops[..3] == [arrive, fire, fire] && ops[..3][..2] == [arrive, fire] && ops[..3][..2][..1] == [arrive];
    assert Run(EMPTY, [arrive]) == d1;
    assert Run(EMPTY, [arrive, fire]) == d2;
    assert Run(EMPTY, [arrive, fire, fire]) == d3;
    assert (ops + [last])[..4] == ops;
  }

  lemma HoldingArrives()
    ensures Step(EMPTY, Outside([], map["A" := HELD])) == EMPTY.(positions := map["A" := HELD])
  {
  }

  lemma RowsChange(d: Desk, rows: seq<OrderRow>)
    requires |d.orders| == |rows| == 1 && rows[0].key == d.orders[0].key && rows[0].payload == d.orders[0].payload
    ensures Step(d, Outside(rows, d.positions)) == d.(orders := rows)
  {
  }
}
