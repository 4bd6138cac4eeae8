/**
 * All the ways the account's own orders come to be, as one state machine: stop
 * evaluations, routed decisions and approvals in any order, with brokers, other
 * order sources and position updates acting in between.
 */
module OrderDesk {
  import opened Common
  import opened BrokerOrders
  import opened Positions
  import opened OrderCreation
  import opened Guards
  import opened StopTriggers
  import opened Approvals

  datatype Desk = Desk(
    orders: seq<OrderRow>,
    positions: PositionTable,
    triggers: seq<Trigger>,
    events: seq<RiskEvent>,
    approvals: seq<Approval>,
    executions: map<ExecutionKey, Execution>)

  function BoardOf(d: Desk): Board {
    Board(d.orders, d.triggers, d.events)
  }

  function WithBoard(d: Desk, b: Board): Desk {
    d.(orders := b.orders, triggers := b.triggers, events := b.events)
  }

  function BookOf(d: Desk): Book {
    Book(d.orders, d.approvals, d.executions)
  }

  function WithBook(d: Desk, b: Book): Desk {
    d.(orders := b.orders, approvals := b.approvals, executions := b.executions)
  }

  datatype Op =
    | EvaluateStop(symbol: Symbol, stop: StopSetting, m: Moment)
    | RecoverStop(t: Id, stop: StopSetting, m: Moment)
    | RouteDecision(d: Decision, route: RouteSetting, m: Moment, e: Entry)
    | ApproveApproval(id: Id, key: Key, m: Moment, e: Entry)
    | RejectApproval(id: Id)
    | ExpireApprovals(now: int)
    | Outside(orders: seq<OrderRow>, positions: PositionTable)

  /** What may happen outside: rows change except for key and payload, and others add their own orders. */
  ghost predicate OutsideOrders(before: seq<OrderRow>, after: seq<OrderRow>) {
    && Grows(before, after) && DistinctKeys(after)
    && forall i :: |before| <= i < |after| ==> after[i].payload.ByOthers?
  }

  /** One step. A call that raises leaves nothing behind. */
  ghost function Step(d: Desk, op: Op): Desk {
    match op
    case EvaluateStop(symbol, s, m) =>
      if symbol in d.positions && d.positions[symbol].state == Held && d.positions[symbol].quantity > 0 then
        match EvaluatePosition(BoardOf(d), symbol, d.positions[symbol], s, m)
        case None => d
        case Some(b) => WithBoard(d, b)
      else d
    case RecoverStop(t, s, m) =>
      if t < |d.triggers| && d.triggers[t].state == ExitPending && m.gate == Some(Ready)
      then WithBoard(d, RecoverExit(BoardOf(d), t, Get(d.positions, d.triggers[t].symbol), s, m))
      else d
    case RouteDecision(decision, s, m, e) =>
      (match Route(BookOf(d), decision, s, Get(d.positions, decision.symbol), m, e)
       case None => d
       case Some(b) => WithBook(d, b))
    case ApproveApproval(id, key, m, e) =>
      if id < |d.approvals|
      then WithBook(d, Approve(BookOf(d), id, key, Get(d.positions, d.approvals[id].decision.symbol), m, e))
      else d
    case RejectApproval(id) => WithBook(d, Reject(BookOf(d), id))
    case ExpireApprovals(now) => WithBook(d, ExpireStale(BookOf(d), now, |d.approvals|))
    case Outside(orders, positions) =>
      if OutsideOrders(d.orders, orders) then d.(orders := orders, positions := positions) else d
  }

  ghost function Run(d: Desk, ops: seq<Op>): Desk {
    if ops == [] then d else Step(Run(d, ops[..|ops| - 1]), ops[|ops| - 1])
  }

  ghost predicate DeskInv(d: Desk) {
    BoardInv(BoardOf(d)) && BookInv(BookOf(d))
  }

  ghost predicate DeskAdvances(before: Desk, after: Desk) {
    && Grows(before.orders, after.orders)
    && TriggersAdvance(before.triggers, after.triggers)
    && ApprovalsAdvance(before.approvals, after.approvals)
  }

  // ---------------------------------------------------------------- the orders a step creates

  predicate Own(row: OrderRow) {
    !row.payload.ByOthers?
  }

  /** At most one order is created, and a sale among them is covered by the position at that moment. */
  ghost predicate OwnOrders(d: Desk, after: seq<OrderRow>) {
    || after == d.orders
    || (&& |after| == |d.orders| + 1 && after[..|d.orders|] == d.orders
        && var row := after[|d.orders|];
           && Own(row) && row.remaining == row.quantity && row.status == Created
           && (row.side == Sell ==>
                 row.symbol in d.positions && Covered(d.orders, row.symbol, d.positions[row.symbol], row.quantity)))
  }

  lemma JudgeOrders(b: Board, t: Id, p: Position, s: StopSetting, m: Moment)
    requires t < |b.triggers|
    ensures var after := Judge(b, t, p, s, m);
            || after.orders == b.orders
            || (&& |after.orders| == |b.orders| + 1 && after.orders[..|b.orders|] == b.orders
                && var row := after.orders[|b.orders|];
                   && row.payload.ByTrigger? && row.symbol == b.triggers[t].symbol && row.remaining == row.quantity
                   && row.status == Created && row.side == Sell && row.quantity == Max(0, p.managed)
                   && Covered(b.orders, row.symbol, p, row.quantity))
  {
    hide StopBlocked, StopPrice, Resolve, Covered, Find;
    if StopBlocked(b.orders, b.triggers[t].symbol, p, b.triggers[t].version, m).None? {
      StopSaleIsCovered(b.orders, b.triggers[t].symbol, p, b.triggers[t].version, m);
    }
  }

  /** A stop sells only the position it watches, and the whole managed part of it. */
  lemma EvaluateOrders(b: Board, symbol: Symbol, p: Position, s: StopSetting, m: Moment)
    requires EvaluatePosition(b, symbol, p, s, m).Some?
    ensures var after := EvaluatePosition(b, symbol, p, s, m).value;
            || after.orders == b.orders
            || (&& |after.orders| == |b.orders| + 1 && after.orders[..|b.orders|] == b.orders
                && var row := after.orders[|b.orders|];
                   && row.payload.ByTrigger? && row.symbol == symbol && row.remaining == row.quantity
                   && row.status == Created && row.side == Sell && row.quantity == Max(0, p.managed)
                   && Covered(b.orders, symbol, p, row.quantity))
  {
    hide Judge, Covered, ShouldTrigger, StopPrice, SupersedeStale, Taken;
    var existing := FindLive(b.triggers, symbol, p.version, s.policy);
    if existing.Some? {
      JudgeOrders(b, existing.value, p, s, m);
    } else {
      SupersedeStaleOrdersStay(b, symbol, s.policy, |b.triggers|);
      JudgeOrders(Raise(SupersedeStale(b, symbol, s.policy, |b.triggers|), symbol, p.version, s.policy), |b.triggers|,
                  p, s, m);
    }
  }

  lemma RecoverOrders(b: Board, t: Id, position: Option<Position>, s: StopSetting, m: Moment)
    requires t < |b.triggers|
    ensures var after := RecoverExit(b, t, position, s, m);
            || after.orders == b.orders
            || (&& |after.orders| == |b.orders| + 1 && after.orders[..|b.orders|] == b.orders
                && var row := after.orders[|b.orders|];
                   && row.payload.ByTrigger? && row.symbol == b.triggers[t].symbol && row.remaining == row.quantity
                   && row.status == Created
                   && position.Some? && Covered(b.orders, row.symbol, position.value, row.quantity))
  {
    hide Judge, Covered;
    if position.Some? {
      JudgeOrders(b, t, position.value, s, m);
    }
  }

  /** What a creation adds: nothing, or the requested row. */
  lemma AfterAdds(orders: seq<OrderRow>, r: Request)
    ensures After(orders, r) == orders || After(orders, r) == orders + [NewRow(r)]
  {
  }

  lemma RoutedOrders(d: Desk, decision: Decision, s: RouteSetting, m: Moment, e: Entry)
    requires DeskInv(d) && Route(BookOf(d), decision, s, Get(d.positions, decision.symbol), m, e).Some?
    ensures OwnOrders(d, Route(BookOf(d), decision, s, Get(d.positions, decision.symbol), m, e).value.orders)
  {
    hide BoardInv, BookInv, RouteBlocked, Covered, Route, ApprovalsAdvance, PlanSale, BuyQuantity, After;
    var position := Get(d.positions, decision.symbol);
    RouteKeeps(BookOf(d), decision, s, position, m, e);
    var r := Routed(BookOf(d), decision, s, position, m, e);
    if r.Some? {
      AfterAdds(d.orders, r.value);
      if r.value.side == Sell {
        RoutedSaleIsCovered(BookOf(d), decision, s, position, m, e);
      }
    }
  }

  lemma ApprovedOrders(d: Desk, id: Id, key: Key, m: Moment, e: Entry)
    requires DeskInv(d) && id < |d.approvals|
    ensures OwnOrders(d, Approve(BookOf(d), id, key, Get(d.positions, d.approvals[id].decision.symbol), m, e).orders)
  {
    hide BoardInv, BookInv, ApprovalBlocked, Covered, Approve, ApprovalsAdvance, After;
    var position := Get(d.positions, d.approvals[id].decision.symbol);
    ApproveKeeps(BookOf(d), id, key, position, m, e);
    var r := ApprovedRequest(BookOf(d), id, key, position, m, e);
    if r.Some? {
      AfterAdds(d.orders, r.value);
      if r.value.side == Sell {
        ApprovedSaleIsCovered(BookOf(d), id, key, position, m, e);
      }
    }
  }

  /** Every order the desk creates comes alone, and every sale among them is covered. */
  lemma StepCreates(d: Desk, op: Op)
    requires DeskInv(d) && !op.Outside?
    ensures OwnOrders(d, Step(d, op).orders)
  {
    hide DeskInv, EvaluatePosition, RecoverExit, Covered, Route, Approve;
    match op
    case EvaluateStop(symbol, s, m) =>
      if symbol in d.positions && EvaluatePosition(BoardOf(d), symbol, d.positions[symbol], s, m).Some? {
        EvaluateOrders(BoardOf(d), symbol, d.positions[symbol], s, m);
      }
    case RecoverStop(t, s, m) =>
      if t < |d.triggers| {
        RecoverOrders(BoardOf(d), t, Get(d.positions, d.triggers[t].symbol), s, m);
      }
    case RouteDecision(decision, s, m, e) =>
      if Route(BookOf(d), decision, s, Get(d.positions, decision.symbol), m, e).Some? {
        RoutedOrders(d, decision, s, m, e);
      }
    case ApproveApproval(id, key, m, e) =>
      if id < |d.approvals| {
        ApprovedOrders(d, id, key, m, e);
      }
    case RejectApproval(id) =>
    case ExpireApprovals(now) =>
      BookKept(d);
      ExpireKeeps(BookOf(d), now, |d.approvals|);
  }

  lemma BookKept(d: Desk)
    requires DeskInv(d)
    ensures BookInv(BookOf(d)) && BoardInv(BoardOf(d))
  {
  }

  // ---------------------------------------------------------------- every run keeps the tables in order

  lemma StopStepKeeps(d: Desk, b: Board)
    requires DeskInv(d) && BoardInv(b) && TriggersAdvance(d.triggers, b.triggers)
    requires Grows(d.orders, b.orders)
    requires forall i :: |d.orders| <= i < |b.orders| ==> b.orders[i].payload.ByTrigger?
    ensures DeskInv(WithBoard(d, b)) && DeskAdvances(d, WithBoard(d, b))
  {
    hide BoardInv, BookInv, TriggersAdvance;
    BoardKeys(b);
    OtherOrdersKeepApprovals(BookOf(d), b.orders);
    assert BoardOf(WithBoard(d, b)) == b;
    assert BookOf(WithBoard(d, b)) == BookOf(d).(orders := b.orders);
  }

  lemma BoardKeys(b: Board)
    requires BoardInv(b)
    ensures DistinctKeys(b.orders)
  {
  }

  lemma BookKeys(b: Book)
    requires BookInv(b)
    ensures DistinctKeys(b.orders)
  {
  }

  lemma BookStepKeeps(d: Desk, b: Book)
    requires DeskInv(d) && BookInv(b) && ApprovalsAdvance(d.approvals, b.approvals)
    requires Grows(d.orders, b.orders)
    requires forall i :: |d.orders| <= i < |b.orders| ==> !b.orders[i].payload.ByTrigger?
    ensures DeskInv(WithBook(d, b)) && DeskAdvances(d, WithBook(d, b))
  {
    hide BoardInv, BookInv, ApprovalsAdvance;
    BookKeys(b);
    OtherOrdersKeep(BoardOf(d), b.orders);
    assert BookOf(WithBook(d, b)) == b;
    assert BoardOf(WithBook(d, b)) == BoardOf(d).(orders := b.orders);
  }

  lemma AfterGrows(orders: seq<OrderRow>, r: Request)
    requires !r.payload.ByTrigger?
    ensures Grows(orders, After(orders, r))
    ensures forall i :: |orders| <= i < |After(orders, r)| ==> !After(orders, r)[i].payload.ByTrigger?
  {
  }

  /** Every step keeps the tables in order; ended rows stay as they are and orders keep key and payload. */
  lemma StepKeeps(d: Desk, op: Op)
    requires DeskInv(d)
    ensures DeskInv(Step(d, op)) && DeskAdvances(d, Step(d, op))
  {
    hide BoardInv, BookInv, EvaluatePosition, RecoverExit, Covered, Route, Approve, Reject, RouteBlocked, PlanSale,
      BuyQuantity, After, ApprovalBlocked;
    match op
    case EvaluateStop(symbol, s, m) =>
      if symbol in d.positions && EvaluatePosition(BoardOf(d), symbol, d.positions[symbol], s, m).Some? {
        EvaluateKeeps(BoardOf(d), symbol, d.positions[symbol], s, m);
        EvaluateOrders(BoardOf(d), symbol, d.positions[symbol], s, m);
        StopStepKeeps(d, EvaluatePosition(BoardOf(d), symbol, d.positions[symbol], s, m).value);
      }
    case RecoverStop(t, s, m) =>
      if t < |d.triggers| && d.triggers[t].state == ExitPending {
        RecoverKeeps(BoardOf(d), t, Get(d.positions, d.triggers[t].symbol), s, m);
        RecoverOrders(BoardOf(d), t, Get(d.positions, d.triggers[t].symbol), s, m);
        StopStepKeeps(d, RecoverExit(BoardOf(d), t, Get(d.positions, d.triggers[t].symbol), s, m));
      }
    case RouteDecision(decision, s, m, e) =>
      var position := Get(d.positions, decision.symbol);
      if Route(BookOf(d), decision, s, position, m, e).Some? {
        RouteKeeps(BookOf(d), decision, s, position, m, e);
        match Routed(BookOf(d), decision, s, position, m, e) {
          case Some(r) => AfterGrows(d.orders, r);
          case None =>
        }
        BookStepKeeps(d, Route(BookOf(d), decision, s, position, m, e).value);
      }
    case ApproveApproval(id, key, m, e) =>
      if id < |d.approvals| {
        var position := Get(d.positions, d.approvals[id].decision.symbol);
        ApproveKeeps(BookOf(d), id, key, position, m, e);
        match ApprovedRequest(BookOf(d), id, key, position, m, e) {
          case Some(r) => AfterGrows(d.orders, r);
          case None =>
        }
        BookStepKeeps(d, Approve(BookOf(d), id, key, position, m, e));
      }
    case RejectApproval(id) =>
      RejectKeeps(BookOf(d), id);
      BookStepKeeps(d, Reject(BookOf(d), id));
    case ExpireApprovals(now) =>
      ExpireKeeps(BookOf(d), now, |d.approvals|);
      BookStepKeeps(d, ExpireStale(BookOf(d), now, |d.approvals|));
    case Outside(orders, positions) =>
      OutsideKeeps(d, orders, positions);
  }

  lemma OutsideKeeps(d: Desk, orders: seq<OrderRow>, positions: PositionTable)
    requires DeskInv(d)
    ensures DeskInv(Step(d, Outside(orders, positions))) && DeskAdvances(d, Step(d, Outside(orders, positions)))
  {
    hide BoardInv, BookInv;
    if OutsideOrders(d.orders, orders) {
      forall i | |d.orders| <= i < |orders|
        ensures AutomaticKeyed(orders[i])
      {
      }
      OtherOrdersKeep(BoardOf(d), orders);
      OtherOrdersKeepApprovals(BookOf(d), orders);
    }
  }

  lemma AdvancesTransitive(a: Desk, b: Desk, c: Desk)
    requires DeskAdvances(a, b) && DeskAdvances(b, c)
    ensures DeskAdvances(a, c)
  {
  }

  lemma {:induction false} RunKeeps(d: Desk, ops: seq<Op>)
    requires DeskInv(d)
    ensures DeskInv(Run(d, ops)) && DeskAdvances(d, Run(d, ops))
  {
    hide DeskInv, Step, DeskAdvances;
    if ops == [] {
      SelfAdvances(d);
    } else {
      var before := Run(d, ops[..|ops| - 1]);
      RunKeeps(d, ops[..|ops| - 1]);
      StepKeeps(before, ops[|ops| - 1]);
      AdvancesTransitive(d, before, Run(d, ops));
    }
  }

  lemma SelfAdvances(d: Desk)
    ensures DeskAdvances(d, d)
  {
  }

  const EMPTY := Desk([], map[], [], [], [], map[])

  // ---------------------------------------------------------------- what holds in every reachable state

  lemma RunKeepsFromEmpty(ops: seq<Op>)
    ensures DeskInv(Run(EMPTY, ops))
  {
    RunKeeps(EMPTY, ops);
  }

  /** A trigger is fulfilled exactly when its own order exists, and then under its own key. */
  lemma FulfilledMeansOrdered(ops: seq<Op>, t: Id)
    requires t < |Run(EMPTY, ops).triggers|
    ensures var d := Run(EMPTY, ops);
            var keyed := Find(d.orders, StopKey(t));
            d.triggers[t].state == Fulfilled <==> keyed.Some? && OrderedBy(d.orders[keyed.value], t)
  {
    hide BookInv, Step, Run;
    RunKeepsFromEmpty(ops);
    var d := Run(EMPTY, ops);
    if d.triggers[t].state == Fulfilled {
      var i :| 0 <= i < |d.orders| && OrderedBy(d.orders[i], t);
      FindIsUnique(d.orders, i);
    }
  }

  /** In every run, no trigger is left pending. */
  lemma NoneLeftPending(ops: seq<Op>, t: Id)
    requires t < |Run(EMPTY, ops).triggers|
    ensures Run(EMPTY, ops).triggers[t].state != Pending
  {
    hide BookInv, Step, Run, StopOrdersMatch, EventsOwned, OneLive, OneRowEach;
    RunKeepsFromEmpty(ops);
  }

  /**
   * In every run, at most one live trigger watches a position under a policy, and a
   * version has one row per policy version.
   */
  lemma TriggersInOrder(ops: seq<Op>, t: Id, u: Id)
    requires t < u < |Run(EMPTY, ops).triggers|
    ensures var d := Run(EMPTY, ops);
            && d.triggers[t].state != Pending && d.triggers[u].state != Pending
            && (d.triggers[t].symbol == d.triggers[u].symbol && d.triggers[t].policy == d.triggers[u].policy ==>
                  && !(Live(d.triggers[t]) && Live(d.triggers[u]))
                  && (d.triggers[t].policy.Some? ==> d.triggers[t].version != d.triggers[u].version))
  {
    hide BookInv, Step, Run, StopOrdersMatch, EventsOwned;
    RunKeepsFromEmpty(ops);
  }

  lemma ActiveEventMeansPendingExit(ops: seq<Op>, e: Id)
    requires e < |Run(EMPTY, ops).events| && Run(EMPTY, ops).events[e].ActiveEvent?
    ensures var d := Run(EMPTY, ops);
            exists t :: 0 <= t < |d.triggers| && d.triggers[t].event == Some(e) && d.triggers[t].state == ExitPending
  {
    hide BookInv, Step, Run, StopOrdersMatch, OneLive;
    RunKeepsFromEmpty(ops);
  }

  lemma {:induction false} RunSplits(d: Desk, first: seq<Op>, more: seq<Op>)
    ensures Run(d, first + more) == Run(Run(d, first), more)
  {
    hide Step;
    if more == [] {
      assert first + more == first;
    } else {
      var n := |more| - 1;
      RunSplits(d, first, more[..n]);
      assert (first + more)[..|first| + n] == first + more[..n];
    }
  }

  /** Superseded and fulfilled triggers, and approvals once they ended, are never written again. */
  lemma EndedRowsStay(ops: seq<Op>, more: seq<Op>)
    ensures var d, later := Run(EMPTY, ops), Run(EMPTY, ops + more);
            && |d.triggers| <= |later.triggers| && |d.approvals| <= |later.approvals|
            && (forall t :: 0 <= t < |d.triggers| && !Live(d.triggers[t]) ==> later.triggers[t] == d.triggers[t])
            && (forall a :: 0 <= a < |d.approvals| && d.approvals[a].state != Awaiting ==>
                later.approvals[a] == d.approvals[a])
  {
    hide DeskInv, Step, Run;
    RunKeepsFromEmpty(ops);
    RunSplits(EMPTY, ops, more);
    RunKeeps(Run(EMPTY, ops), more);
  }

  /** The trigger, the approval, or the decision with its action that an own order was created for. */
  predicate SameSource(a: Payload, b: Payload) {
    || (a.ByTrigger? && b.ByTrigger? && a.trigger == b.trigger)
    || (a.ByApproval? && b.ByApproval? && a.approval == b.approval)
    || (a.ByDecision? && b.ByDecision? && a.decision == b.decision && a.action == b.action)
  }

  /** In every run each trigger, each approval, and each automatic decision and action has at most one order. */
  lemma ExactlyOncePerSource(ops: seq<Op>, i: Id, j: Id)
    requires i < j < |Run(EMPTY, ops).orders|
    ensures !SameSource(Run(EMPTY, ops).orders[i].payload, Run(EMPTY, ops).orders[j].payload)
  {
    hide Step, Run, BookInv, OneLive, EventsOwned;
    RunKeepsFromEmpty(ops);
    OneOrderPerSource(BookOf(Run(EMPTY, ops)), i, j);
  }

  /** In every run, no two approved approvals share an order. */
  lemma ApprovalsShareNoOrder(ops: seq<Op>, a: Id, c: Id)
    requires a < c < |Run(EMPTY, ops).approvals|
    requires Run(EMPTY, ops).approvals[a].state == Approved && Run(EMPTY, ops).approvals[c].state == Approved
    ensures Run(EMPTY, ops).approvals[a].order != Run(EMPTY, ops).approvals[c].order
  {
    hide Step, Run, BookInv, BoardInv;
    RunKeepsFromEmpty(ops);
    ApprovedOrdersDiffer(BookOf(Run(EMPTY, ops)), a, c);
  }

  // ---------------------------------------------------------------- keys that nobody else uses

  /** Whoever chooses keys by hand stays away from those of triggers. */
  ghost predicate KeepsOffStopKeys(d: Desk, op: Op) {
    && (op.ApproveApproval? ==> !op.key.StopKey?)
    && (op.Outside? ==> forall i :: |d.orders| <= i < |op.orders| ==> !op.orders[i].key.StopKey?)
  }

  ghost predicate StopKeysOwn(orders: seq<OrderRow>) {
    forall i :: 0 <= i < |orders| && orders[i].key.StopKey? ==> OrderedBy(orders[i], orders[i].key.trigger)
  }

  lemma StepKeepsStopKeys(d: Desk, op: Op)
    requires DeskInv(d) && StopKeysOwn(d.orders) && KeepsOffStopKeys(d, op)
    ensures StopKeysOwn(Step(d, op).orders)
  {
    hide BoardInv, BookInv, EvaluatePosition, RecoverExit, Covered, Route, Approve, Reject, RouteBlocked, PlanSale,
      BuyQuantity, After, ApprovalBlocked, ExpireStale;
    var after := Step(d, op);
    match op
    case EvaluateStop(symbol, s, m) =>
      StopOrdersUnderOwnKeys(d, op);
    case RecoverStop(t, s, m) =>
      StopOrdersUnderOwnKeys(d, op);
    case RouteDecision(decision, s, m, e) =>
      var position := Get(d.positions, decision.symbol);
      if Route(BookOf(d), decision, s, position, m, e).Some? {
        RouteKeeps(BookOf(d), decision, s, position, m, e);
        match Routed(BookOf(d), decision, s, position, m, e) {
          case Some(r) => AfterAdds(d.orders, r);
          case None =>
        }
      }
    case ApproveApproval(id, key, m, e) =>
      if id < |d.approvals| {
        var position := Get(d.positions, d.approvals[id].decision.symbol);
        ApproveKeeps(BookOf(d), id, key, position, m, e);
        match ApprovedRequest(BookOf(d), id, key, position, m, e) {
          case Some(r) => AfterAdds(d.orders, r);
          case None =>
        }
      }
    case RejectApproval(id) =>
      RejectKeeps(BookOf(d), id);
    case ExpireApprovals(now) =>
      ExpireKeeps(BookOf(d), now, |d.approvals|);
    case Outside(orders, positions) =>
      OutsideKeepsStopKeys(d.orders, orders);
  }

  lemma OutsideKeepsStopKeys(before: seq<OrderRow>, after: seq<OrderRow>)
    requires StopKeysOwn(before)
    requires forall i :: |before| <= i < |after| ==> !after[i].key.StopKey?
    ensures OutsideOrders(before, after) ==> StopKeysOwn(after)
  {
  }

  lemma StopOrdersUnderOwnKeys(d: Desk, op: Op)
    requires DeskInv(d) && StopKeysOwn(d.orders) && (op.EvaluateStop? || op.RecoverStop?)
    ensures StopKeysOwn(Step(d, op).orders)
  {
    hide BookInv, EvaluatePosition, RecoverExit, Covered, Step, OneLive, OneRowEach, NonePending, EventsOwned;
    StepKeeps(d, op);
    var after := Step(d, op).orders;
    StopStepAdds(d, op);
    forall i | 0 <= i < |after| && after[i].key.StopKey?
      ensures OrderedBy(after[i], after[i].key.trigger)
    {
      if i < |d.orders| {
        assert after[i] == after[..|d.orders|][i];
      }
    }
  }

  lemma StopStepAdds(d: Desk, op: Op)
    requires op.EvaluateStop? || op.RecoverStop?
    ensures var after := Step(d, op).orders;
            || after == d.orders
            || (|after| == |d.orders| + 1 && after[..|d.orders|] == d.orders && after[|d.orders|].payload.ByTrigger?)
  {
    hide EvaluatePosition, RecoverExit, Covered;
    match op
    case EvaluateStop(symbol, s, m) =>
      if symbol in d.positions && EvaluatePosition(BoardOf(d), symbol, d.positions[symbol], s, m).Some? {
        EvaluateOrders(BoardOf(d), symbol, d.positions[symbol], s, m);
      }
    case RecoverStop(t, s, m) =>
      if t < |d.triggers| {
        RecoverOrders(BoardOf(d), t, Get(d.positions, d.triggers[t].symbol), s, m);
      }
  }

  ghost predicate OwnStopKeysRun(ops: seq<Op>) {
    forall i :: 0 <= i < |ops| ==> KeepsOffStopKeys(Run(EMPTY, ops[..i]), ops[i])
  }

  lemma {:induction false} RunKeepsStopKeys(ops: seq<Op>)
    requires OwnStopKeysRun(ops)
    ensures StopKeysOwn(Run(EMPTY, ops).orders)
  {
    hide DeskInv, Step, StopKeysOwn, KeepsOffStopKeys;
    if ops == [] {
      NoStopKeys();
    } else {
      var n := |ops| - 1;
      forall i | 0 <= i < n
        ensures ops[..n][..i] == ops[..i]
      {
      }
      RunKeepsStopKeys(ops[..n]);
      RunKeepsFromEmpty(ops[..n]);
      assert KeepsOffStopKeys(Run(EMPTY, ops[..n]), ops[n]);
      StepKeepsStopKeys(Run(EMPTY, ops[..n]), ops[n]);
    }
  }

  lemma NoStopKeys()
    ensures StopKeysOwn(EMPTY.orders)
  {
  }

  /** If nobody else takes a trigger's key, a trigger is fulfilled exactly when an order carries its key. */
  lemma KeyMeansFulfilled(ops: seq<Op>, t: Id)
    requires OwnStopKeysRun(ops) && t < |Run(EMPTY, ops).triggers|
    ensures var d := Run(EMPTY, ops);
            d.triggers[t].state == Fulfilled <==> Find(d.orders, StopKey(t)).Some?
  {
    hide Run, OwnStopKeysRun;
    FulfilledMeansOrdered(ops, t);
    RunKeepsStopKeys(ops);
  }

  /** An order of somebody else under a trigger's key keeps that trigger from ever being fulfilled. */
  lemma ForeignKeyBlocksStop(ops: seq<Op>, more: seq<Op>, i: Id, t: Id)
    requires i < |Run(EMPTY, ops).orders| && t < |Run(EMPTY, ops + more).triggers|
    requires Run(EMPTY, ops).orders[i].key == StopKey(t) && !Run(EMPTY, ops).orders[i].payload.ByTrigger?
    ensures Run(EMPTY, ops + more).triggers[t].state != Fulfilled
  {
    hide Step, Run, BookInv, BoardInv, TriggersAdvance, ApprovalsAdvance;
    RunKeepsFromEmpty(ops);
    RunSplits(EMPTY, ops, more);
    RunKeeps(Run(EMPTY, ops), more);
    FulfilledMeansOrdered(ops + more, t);
    BoardKeys(BoardOf(Run(EMPTY, ops + more)));
    FindIsUnique(Run(EMPTY, ops + more).orders, i);
  }

  // ---------------------------------------------------------------- approvals that run out

  lemma StepKeepsEndedPairs(d: Desk, op: Op)
    requires DeskInv(d)
    ensures EndedPairsStay(BookOf(d), BookOf(Step(d, op)))
  {
    hide BoardInv, BookInv, EvaluatePosition, RecoverExit, Route, Approve, Reject, ExpireStale, EndedPairsStay;
    UnwrittenPairsStay(d, Step(d, op));
    match op
    case EvaluateStop(_, _, _) =>
    case RecoverStop(_, _, _) =>
    case RouteDecision(decision, s, m, e) =>
      if Route(BookOf(d), decision, s, Get(d.positions, decision.symbol), m, e).Some? {
        RouteWritesNothingOld(BookOf(d), decision, s, Get(d.positions, decision.symbol), m, e);
        UnwrittenPairsStay(d, Step(d, op));
      }
    case ApproveApproval(id, key, m, e) =>
      if id < |d.approvals| {
        var position := Get(d.positions, d.approvals[id].decision.symbol);
        ApprovingKeepsEndedPairs(BookOf(d), id, key, position, m, e);
        BookAfterWithBook(d, Approve(BookOf(d), id, key, position, m, e));
      }
    case RejectApproval(id) =>
      RejectingKeepsEndedPairs(BookOf(d), id);
      BookAfterWithBook(d, Reject(BookOf(d), id));
    case ExpireApprovals(now) =>
      ExpireKeepsEnded(BookOf(d), now);
      BookAfterWithBook(d, ExpireStale(BookOf(d), now, |d.approvals|));
    case Outside(_, _) =>
  }

  lemma BookAfterWithBook(d: Desk, b: Book)
    ensures BookOf(WithBook(d, b)) == b
  {
  }

  lemma UnwrittenPairsStay(d: Desk, after: Desk)
    ensures d.approvals <= after.approvals
            && (forall key :: key in d.executions ==>
                key in after.executions && after.executions[key] == d.executions[key]) ==>
              EndedPairsStay(BookOf(d), BookOf(after))
  {
  }

  lemma ApprovingKeepsEndedPairs(b: Book, id: Id, key: Key, position: Option<Position>, m: Moment, e: Entry)
    requires BookInv(b)
    ensures EndedPairsStay(b, Approve(b, id, key, position, m, e))
  {
    hide BookInv, WritesOnly, ApprovalBlocked, ApprovalRequest, Create;
    if id < |b.approvals| && b.approvals[id].state == Awaiting {
      ApproveWritesOne(b, id, key, position, m, e);
      WritingOneKeepsEnded(b, Approve(b, id, key, position, m, e), id);
    }
  }

  lemma RejectingKeepsEndedPairs(b: Book, id: Id)
    requires BookInv(b)
    ensures EndedPairsStay(b, Reject(b, id))
  {
    hide BookInv, WritesOnly, Close;
    if id < |b.approvals| && b.approvals[id].state == Awaiting {
      RejectWritesOne(b, id);
      WritingOneKeepsEnded(b, Reject(b, id), id);
    }
  }

  lemma EndedPairsTransitive(a: Book, b: Book, c: Book)
    requires EndedPairsStay(a, b) && EndedPairsStay(b, c)
    ensures EndedPairsStay(a, c)
  {
  }

  lemma {:induction false} RunKeepsEndedPairs(d: Desk, ops: seq<Op>)
    requires DeskInv(d)
    ensures EndedPairsStay(BookOf(d), BookOf(Run(d, ops)))
  {
    hide DeskInv, Step, EndedPairsStay, BookOf;
    if ops == [] {
      SameBookStays(BookOf(d));
    } else {
      var before := Run(d, ops[..|ops| - 1]);
      RunKeepsEndedPairs(d, ops[..|ops| - 1]);
      RunKeeps(d, ops[..|ops| - 1]);
      StepKeepsEndedPairs(before, ops[|ops| - 1]);
      EndedPairsTransitive(BookOf(d), BookOf(before), BookOf(Run(d, ops)));
    }
  }

  lemma SameBookStays(b: Book)
    ensures EndedPairsStay(b, b)
  {
  }

  /** In every run, an ended approval and its execution never change again. */
  lemma EndedPairsNeverChange(ops: seq<Op>, more: seq<Op>, id: Id)
    requires id < |Run(EMPTY, ops).approvals| && Run(EMPTY, ops).approvals[id].state != Awaiting
    ensures var d, later := Run(EMPTY, ops), Run(EMPTY, ops + more);
            var key := d.approvals[id].execution;
            && id < |later.approvals| && later.approvals[id] == d.approvals[id]
            && key in d.executions && key in later.executions && later.executions[key] == d.executions[key]
  {
    hide Step, Run, BoardInv, BookInv;
    RunKeepsFromEmpty(ops);
    RunSplits(EMPTY, ops, more);
    RunKeepsEndedPairs(Run(EMPTY, ops), more);
    ApprovalLinked(BookOf(Run(EMPTY, ops)), id);
  }

  lemma ApprovalLinked(b: Book, id: Id)
    requires BookInv(b) && id < |b.approvals|
    ensures b.approvals[id].execution in b.executions
    ensures b.approvals[id].state == Awaiting ==> b.executions[b.approvals[id].execution].state == ApprovalPending
  {
    assert Linked(b, id);
  }

  /** The step finds the approval run out: a sweep late enough, or an attempt to approve it late. */
  predicate RunsOut(d: Desk, op: Op, id: Id)
    requires id < |d.approvals|
  {
    || (op.ExpireApprovals? && d.approvals[id].expiresAt <= op.now)
    || (op.ApproveApproval? && op.id == id && d.approvals[id].expiresAt <= op.m.now)
  }

  lemma StepLapses(d: Desk, op: Op, id: Id)
    requires DeskInv(d) && id < |d.approvals| && d.approvals[id].state == Awaiting
    ensures var after := Step(d, op);
            var key := d.approvals[id].execution;
            && id < |after.approvals|
            && (after.approvals[id].state == Lapsed <==> RunsOut(d, op, id))
            && (after.approvals[id].state == Lapsed ==>
                  && key in after.executions
                  && after.executions[key].state == if op.ExpireApprovals? then ExecutionExpired else ApprovalPending)
  {
    hide BoardInv, BookInv, EvaluatePosition, RecoverExit, Route, Approve, Reject, ExpireStale;
    match op
    case EvaluateStop(_, _, _) =>
    case RecoverStop(_, _, _) =>
    case RouteDecision(decision, s, m, e) =>
      if Route(BookOf(d), decision, s, Get(d.positions, decision.symbol), m, e).Some? {
        RouteWritesNothingOld(BookOf(d), decision, s, Get(d.positions, decision.symbol), m, e);
      }
    case ApproveApproval(other, key, m, e) =>
      if other < |d.approvals| {
        var position := Get(d.positions, d.approvals[other].decision.symbol);
        if other != id {
          ApprovingSparesOthers(BookOf(d), other, key, position, m, e, id);
        } else {
          ApproveWritesOne(BookOf(d), id, key, position, m, e);
          if d.approvals[id].expiresAt <= m.now {
            LateApprovalLeavesPending(BookOf(d), id, key, position, m, e);
          }
        }
      }
    case RejectApproval(other) =>
      RejectingNeverLapses(BookOf(d), other, id);
    case ExpireApprovals(now) =>
      if d.approvals[id].expiresAt <= now {
        ExpireEndsBoth(BookOf(d), now, |d.approvals|, id);
      } else {
        ExpireSparesOthers(BookOf(d), now, |d.approvals|, id);
      }
    case Outside(_, _) =>
  }

  lemma ApprovingSparesOthers(b: Book, other: Id, key: Key, position: Option<Position>, m: Moment, e: Entry, id: Id)
    requires id < |b.approvals| && other < |b.approvals| && other != id
    ensures |Approve(b, other, key, position, m, e).approvals| == |b.approvals|
    ensures Approve(b, other, key, position, m, e).approvals[id] == b.approvals[id]
  {
    if b.approvals[other].state == Awaiting {
      ApproveWritesOne(b, other, key, position, m, e);
    }
  }

  lemma RejectingNeverLapses(b: Book, other: Id, id: Id)
    requires id < |b.approvals| && b.approvals[id].state == Awaiting
    ensures |Reject(b, other).approvals| == |b.approvals| && Reject(b, other).approvals[id].state != Lapsed
  {
  }

  /**
   * In every run, an awaiting approval lapses exactly at a sweep or an approval
   * attempt at or past its time. A sweep ends its execution with it; an attempt
   * to approve it leaves the execution pending, and then both stay so for good.
   */
  lemma LapsesExactly(ops: seq<Op>, op: Op, more: seq<Op>, id: Id)
    requires id < |Run(EMPTY, ops).approvals| && Run(EMPTY, ops).approvals[id].state == Awaiting
    ensures var d, after, later := Run(EMPTY, ops), Run(EMPTY, ops + [op]), Run(EMPTY, ops + [op] + more);
            var key := d.approvals[id].execution;
            && id < |after.approvals| && id < |later.approvals|
            && (after.approvals[id].state == Lapsed <==> RunsOut(d, op, id))
            && (after.approvals[id].state == Lapsed ==>
                  && key in after.executions && key in later.executions
                  && (after.executions[key].state == ExecutionExpired <==> op.ExpireApprovals?)
                  && (after.executions[key].state == ApprovalPending <==> op.ApproveApproval?)
                  && later.approvals[id] == after.approvals[id] && later.executions[key] == after.executions[key])
  {
    hide Step, BoardInv, BookInv, DeskAdvances;
    RunKeepsFromEmpty(ops);
    StepLapses(Run(EMPTY, ops), op, id);
    assert (ops + [op])[..|ops|] == ops;
    RunKeepsFromEmpty(ops + [op]);
    RunSplits(EMPTY, ops + [op], more);
    RunKeeps(Run(EMPTY, ops + [op]), more);
    ApprovalsOnlyGrow(Run(EMPTY, ops + [op]), Run(EMPTY, ops + [op] + more));
    ScopesStay(ops, op, id);
    if Run(EMPTY, ops + [op]).approvals[id].state == Lapsed {
      EndedPairsNeverChange(ops + [op], more, id);
    }
  }

  lemma ApprovalsOnlyGrow(before: Desk, after: Desk)
    requires DeskAdvances(before, after)
    ensures |before.approvals| <= |after.approvals|
    ensures forall id :: 0 <= id < |before.approvals| ==>
              after.approvals[id].execution == before.approvals[id].execution
  {
  }

  lemma ScopesStay(ops: seq<Op>, op: Op, id: Id)
    requires id < |Run(EMPTY, ops).approvals|
    ensures id < |Run(EMPTY, ops + [op]).approvals|
    ensures Run(EMPTY, ops + [op]).approvals[id].execution == Run(EMPTY, ops).approvals[id].execution
  {
    hide Step, BoardInv, BookInv, DeskAdvances;
    RunKeepsFromEmpty(ops);
    assert (ops + [op])[..|ops|] == ops;
    StepKeeps(Run(EMPTY, ops), op);
    ApprovalsOnlyGrow(Run(EMPTY, ops), Step(Run(EMPTY, ops), op));
  }

  // ---------------------------------------------------------------- one sale at a time

  predicate ActiveOwnSale(row: OrderRow) {
    Own(row) && row.side == Sell && Active(row.status)
  }

  /** Outside, no own order becomes an active sale that was none before, or of another symbol. */
  ghost predicate Settled(before: seq<OrderRow>, after: seq<OrderRow>)
    requires |before| <= |after|
  {
    forall i :: 0 <= i < |before| && ActiveOwnSale(after[i]) ==>
      ActiveOwnSale(before[i]) && after[i].symbol == before[i].symbol
  }

  ghost predicate QuietRun(d: Desk, ops: seq<Op>) {
    forall i :: 0 <= i < |ops| && ops[i].Outside? ==>
      |Run(d, ops[..i]).orders| <= |ops[i].orders| && Settled(Run(d, ops[..i]).orders, ops[i].orders)
  }

  ghost predicate OneSaleEach(orders: seq<OrderRow>) {
    forall i, j :: 0 <= i < j < |orders| && ActiveOwnSale(orders[i]) && ActiveOwnSale(orders[j]) ==>
      orders[i].symbol != orders[j].symbol
  }

  lemma CreationKeepsOneSale(d: Desk, after: seq<OrderRow>)
    requires OneSaleEach(d.orders) && OwnOrders(d, after)
    ensures OneSaleEach(after)
  {
    if after != d.orders {
      assert forall i :: 0 <= i < |d.orders| ==> after[i] == after[..|d.orders|][i];
    }
  }

  lemma OutsideKeepsOneSale(before: seq<OrderRow>, after: seq<OrderRow>)
    requires OneSaleEach(before) && OutsideOrders(before, after) && Settled(before, after)
    ensures OneSaleEach(after)
  {
    forall i | 0 <= i < |after| && ActiveOwnSale(after[i])
      ensures i < |before| && ActiveOwnSale(before[i]) && after[i].symbol == before[i].symbol
    {
    }
  }

  /**
   * In every run in which nothing outside turns an own order into an active sale, a
   * symbol never has two active sales of the account's own.
   */
  lemma {:induction false} OneActiveSalePerSymbol(ops: seq<Op>)
    requires QuietRun(EMPTY, ops)
    ensures OneSaleEach(Run(EMPTY, ops).orders)
  {
    hide DeskInv, OwnOrders, OneSaleEach, Settled, OutsideOrders, QuietRun;
    if ops == [] {
      NoSales();
    } else {
      var n := |ops| - 1;
      QuietPrefix(ops, n);
      OneActiveSalePerSymbol(ops[..n]);
      RunKeepsFromEmpty(ops[..n]);
      var before := Run(EMPTY, ops[..n]);
      if ops[n].Outside? {
        if OutsideOrders(before.orders, ops[n].orders) {
          OutsideKeepsOneSale(before.orders, ops[n].orders);
        }
      } else {
        StepCreates(before, ops[n]);
        CreationKeepsOneSale(before, Step(before, ops[n]).orders);
      }
    }
  }

  lemma NoSales()
    ensures OneSaleEach(EMPTY.orders)
  {
  }

  lemma QuietPrefix(ops: seq<Op>, n: nat)
    requires n < |ops| && QuietRun(EMPTY, ops)
    ensures QuietRun(EMPTY, ops[..n])
    ensures ops[n].Outside? ==>
              |Run(EMPTY, ops[..n]).orders| <= |ops[n].orders| && Settled(Run(EMPTY, ops[..n]).orders, ops[n].orders)
  {
    hide Run, Settled;
    forall i | 0 <= i < n
      ensures ops[..n][..i] == ops[..i]
    {
    }
  }

  /**
   * In every run, a sale the desk creates fits in the managed, available and
   * unreserved part of the position it sells.
   */
  lemma EverySaleIsCovered(ops: seq<Op>, op: Op)
    requires !op.Outside?
    ensures var d := Run(EMPTY, ops);
            var after := Run(EMPTY, ops + [op]);
            forall i :: |d.orders| <= i < |after.orders| && after.orders[i].side == Sell ==>
              && after.orders[i].symbol in d.positions
              && Covered(d.orders, after.orders[i].symbol, d.positions[after.orders[i].symbol],
                         after.orders[i].quantity)
  {
    hide DeskInv, Covered, Step;
    RunKeepsFromEmpty(ops);
    StepCreates(Run(EMPTY, ops), op);
    assert (ops + [op])[..|ops|] == ops;
  }
}
