/**
 * The order desk's tables and the services that update them in place, each
 * against the step of the state machine it takes.
 */
module OrderDeskStore {
  import opened Common
  import opened BrokerOrders
  import opened Positions
  import opened OrderCreation
  import opened Guards
  import opened StopTriggers
  import opened Approvals
  import opened DeskLaws
  import opened OrderDesk
  import opened StopPolicy
  import PolicyVersions

  class TradingDesk {
    var orders: seq<OrderRow>
    var positions: PositionTable
    var triggers: seq<Trigger>
    var events: seq<RiskEvent>
    var approvals: seq<Approval>
    var executions: map<ExecutionKey, Execution>

    ghost function Tables(): Desk
      reads this
    {
      Desk(orders, positions, triggers, events, approvals, executions)
    }

    function StopTables(): Board
      reads this
    {
      Board(orders, triggers, events)
    }

    function RouteTables(): Book
      reads this
    {
      Book(orders, approvals, executions)
    }

    constructor ()
      ensures Tables() == EMPTY
    {
      orders, positions, triggers, events, approvals, executions := [], map[], [], [], [], map[];
    }

    // -------------------------------------------------------------- order creation

    method FindOrder(key: Key) returns (found: Option<Id>)
      ensures found == Find(orders, key)
    {
      found := None;
      for i := 0 to |orders|
        invariant found == Find(orders[..i], key)
      {
        assert orders[..i + 1][..i] == orders[..i];
        if orders[i].key == key {
          found := Some(i);
        }
      }
      assert orders[..|orders|] == orders;
    }

    /** Returns the order's row number, or the code the request was refused with. */
    method CreateOrder(r: Request) returns (id: Option<Id>, refused: Option<Code>)
      modifies `orders
      ensures orders == After(old(orders), r)
      ensures id.Some? != refused.Some?
      ensures match Create(old(orders), r)
              case Placed(_, placed) => id == Some(placed)
              case Known(known) => id == Some(known)
              case Refused(code) => refused == Some(code)
    {
      id, refused := None, None;
      if r.quantity <= 0 {
        refused := Some(QuantityInvalid);
        return;
      }
      if r.venue == OtherVenue {
        refused := Some(VenueInvalid);
        return;
      }
      if r.orderType == Limit && r.limitPrice.None? {
        refused := Some(LimitPriceRequired);
        return;
      }
      if r.orderType == Market && r.limitPrice.Some? {
        refused := Some(MarketPriceNotAllowed);
        return;
      }
      var existing := FindOrder(r.key);
      if existing.Some? {
        if orders[existing.value].payload != r.payload {
          refused := Some(IdempotencyConflict);
        } else {
          id := existing;
        }
        return;
      }
      id := Some(|orders|);
      orders := orders + [OrderRow(r.key, r.payload, r.symbol, r.side, r.limitPrice, r.quantity, r.quantity, Created)];
    }

    // -------------------------------------------------------------- risk events

    method CreateRiskEvent(rule: Code) returns (id: Id)
      modifies `events
      ensures id == |old(events)| && events == old(events) + [ActiveEvent(rule)]
    {
      id := |events|;
      events := events + [ActiveEvent(rule)];
    }

    /** Resolving twice, or a row that does not exist, changes nothing. */
    method ResolveRiskEvent(id: Id, resolution: Resolution)
      modifies `events
      ensures events == Resolve(old(events), Some(id), resolution)
    {
      if id >= |events| || events[id].ResolvedEvent? {
        return;
      }
      events := events[id := ResolvedEvent(events[id].rule, resolution)];
    }

    // -------------------------------------------------------------- the fixed stop

    method SupersedeTrigger(t: Id, resolution: Resolution)
      requires t < |triggers|
      modifies `triggers, `events
      ensures StopTables() == Supersede(old(StopTables()), t, resolution)
    {
      triggers := triggers[t := triggers[t].(state := Superseded)];
      if triggers[t].event.Some? {
        ResolveRiskEvent(triggers[t].event.value, resolution);
      }
    }

    method SupersedeStaleTriggers(symbol: Symbol, policy: Option<Id>)
      modifies `triggers, `events
      ensures StopTables() == SupersedeStale(old(StopTables()), symbol, policy, |old(triggers)|)
    {
      ghost var start := StopTables();
      hide Supersede;
      for t := 0 to |triggers|
        invariant |triggers| == |start.triggers| && StopTables() == SupersedeStale(start, symbol, policy, t)
        invariant forall i :: t <= i < |triggers| ==> triggers[i] == start.triggers[i]
      {
        if Live(triggers[t]) && Concerns(triggers[t], symbol, policy) {
          SupersedeMoves(StopTables(), t, BySupersession);
          SupersedeTrigger(t, BySupersession);
        }
      }
    }

    method EmitFixedStopOrder(t: Id, p: Position, quote: Quote, stopPrice: real)
      requires t < |triggers|
      modifies `orders, `triggers, `events
      ensures StopTables() == Emit(old(StopTables()), t, p, quote, stopPrice)
    {
      if quote.bid.None? || quote.bid.value <= 0.0 {
        triggers := triggers[t := triggers[t].(state := ExitPending, result := Some(NoExecutableQuote))];
        return;
      }
      var id, refused := CreateOrder(StopRequest(t, triggers[t].symbol, p, quote.bid.value, stopPrice));
      if refused.Some? {
        triggers := triggers[t := triggers[t].(state := ExitPending, result := refused)];
        return;
      }
      triggers := triggers[t := triggers[t].(state := Fulfilled, result := Some(OrderCreated))];
      if triggers[t].event.Some? {
        ResolveRiskEvent(triggers[t].event.value, ByOrder);
      }
    }

    method JudgeTrigger(t: Id, p: Position, s: StopSetting, m: Moment)
      requires t < |triggers|
      modifies `orders, `triggers, `events
      ensures StopTables() == Judge(old(StopTables()), t, p, s, m)
      ensures Evaluated(old(StopTables()), t, p, s, m, StopTables())
    {
      hide Create, After, StopBlocked, StopPrice, Evaluated;
      JudgeMeans(StopTables(), t, p, s, m);
      var blocked := StopBlocked(orders, triggers[t].symbol, p, triggers[t].version, m);
      if blocked.Some? {
        if triggers[t].event.None? {
          var event := CreateRiskEvent(blocked.value);
          triggers := triggers[t := triggers[t].(event := Some(event))];
        }
        triggers := triggers[t := triggers[t].(state := ExitPending, result := blocked)];
        return;
      }
      if triggers[t].event.Some? {
        ResolveRiskEvent(triggers[t].event.value, ByRecovery);
      }
      if s.sellsAutomatically && m.quote.Some? {
        EmitFixedStopOrder(t, p, m.quote.value, StopPrice(p, s.lossPct));
      } else {
        triggers := triggers[t := triggers[t].(state := ShadowRecorded, result := None)];
      }
    }

    method ReEvaluateTrigger(t: Id, p: Position, s: StopSetting, m: Moment)
      requires t < |triggers|
      modifies `orders, `triggers, `events
      ensures StopTables() == ReEvaluate(old(StopTables()), t, p, s, m)
    {
      hide Judge, Supersede;
      if p.state != Held || p.quantity <= 0 {
        SupersedeTrigger(t, ByPositionClosed);
      } else {
        JudgeTrigger(t, p, s, m);
      }
    }

    /** False when the database refuses the new trigger row; the caller then rolls back. */
    method EvaluateOne(symbol: Symbol, p: Position, s: StopSetting, m: Moment) returns (ok: bool)
      modifies `orders, `triggers, `events
      ensures ok <==> EvaluatePosition(old(StopTables()), symbol, p, s, m).Some?
      ensures ok ==> EvaluatePosition(old(StopTables()), symbol, p, s, m) == Some(StopTables())
      ensures ok && p.state == Held && p.quantity > 0 ==>
                TickEvaluates(old(StopTables()), symbol, p, s, m, StopTables())
    {
      hide Judge, Supersede, ReEvaluate, StopPrice, TickEvaluates;
      if p.state == Held && p.quantity > 0 && EvaluatePosition(StopTables(), symbol, p, s, m).Some? {
        EvaluatePositionMeans(StopTables(), symbol, p, s, m);
      }
      var existing := FindLive(triggers, symbol, p.version, s.policy);
      if existing.Some? {
        ReEvaluateTrigger(existing.value, p, s, m);
        return true;
      }
      var taken := Taken(triggers, symbol, p.version, s.policy);
      SupersedeStaleTriggers(symbol, s.policy);
      if !ShouldTrigger(if m.quote.Some? then m.quote.value.bid else None, StopPrice(p, s.lossPct)) {
        return true;
      }
      if taken {
        return false;
      }
      triggers := triggers + [Trigger(symbol, p.version, s.policy, Pending, None, None)];
      JudgeTrigger(|triggers| - 1, p, s, m);
      return true;
    }

    /**
     * One worker tick: every open position is evaluated against its own quote,
     * in some order. It fails exactly if the database refuses a trigger row for
     * some position as the tables were before the call, and is then rolled back.
     * That never happens as long as no policy version is drafted for the account.
     */
    method RunFixedStopTriggers(w: World) returns (ok: bool, ghost order: seq<Symbol>)
      modifies `orders, `triggers, `events
      ensures ok <==> forall symbol :: IsOpen(positions, symbol) ==>
                        !Refuses(old(triggers), symbol, positions[symbol], w.Stop(), w.For(symbol))
      ensures NoAccountLine(w.versions) ==> ok
      ensures !ok ==> Tables() == old(Tables())
      ensures ok ==>
                && Tables() == Run(old(Tables()), Evaluations(order, w))
                && (forall i, j :: 0 <= i < j < |order| ==> order[i] != order[j])
                && (forall symbol :: symbol in order <==> IsOpen(positions, symbol))
    {
      hide EvaluatePosition, Refuses, Step, Run, OnlySymbol, NoAccountLine, Setting, At;
      ghost var start := Tables();
      var savedOrders, savedTriggers, savedEvents := orders, triggers, events;
      var todo := set symbol | symbol in positions && IsOpen(positions, symbol);
      ghost var open := todo;
      order := [];
      NoEvaluations(start, w);
      while todo != {}
        invariant todo <= open && (forall symbol :: symbol in order <==> symbol in open && symbol !in todo)
        invariant forall i, j :: 0 <= i < j < |order| ==> order[i] != order[j]
        invariant Tables() == Run(start, Evaluations(order, w))
        invariant forall symbol :: symbol in order ==> !RefusedAt(start, symbol, w)
        invariant forall symbol :: symbol in todo ==> RefusedAt(Tables(), symbol, w) == RefusedAt(start, symbol, w)
        decreases |todo|
      {
        var symbol :| symbol in todo;
        todo := todo - {symbol};
        ghost var before := Tables();
        var m := w.For(symbol);
        RefusedExactly(StopTables(), symbol, positions[symbol], w.Stop(), m);
        ok := EvaluateOne(symbol, positions[symbol], w.Stop(), m);
        if !ok {
          assert RefusedAt(start, symbol, w);
          if NoAccountLine(w.versions) {
            NothingRefusedByDefault(w, start.triggers, symbol, positions[symbol], m);
          }
          orders, triggers, events := savedOrders, savedTriggers, savedEvents;
          return;
        }
        TickStep(before, Tables(), symbol, w, todo);
        OneMoreEvaluation(start, order, symbol, w);
        order := order + [symbol];
      }
      forall symbol | IsOpen(positions, symbol)
        ensures !Refuses(start.triggers, symbol, positions[symbol], w.Stop(), w.For(symbol))
      {
        assert symbol in order;
      }
      ok := true;
    }

    /** Looks again at every pending exit once the gate is open. */
    method RecoverExitPending(w: World) returns (ghost ids: seq<Id>)
      modifies `orders, `triggers, `events
      ensures Tables() == Run(old(Tables()), Recoveries(old(triggers), ids, w))
      ensures w.tick.gate != Some(Ready) ==> ids == []
      ensures w.tick.gate == Some(Ready) ==> forall t: Id :: t in ids <==>
                t < |old(triggers)| && old(triggers)[t].state == ExitPending
    {
      hide Judge, Supersede, ReEvaluate, Step, Run, RecoverExit, OnlyMoves;
      ghost var start := Tables();
      ids := [];
      NoRecoveries(start, w);
      if w.tick.gate != Some(Ready) {
        return;
      }
      for t := 0 to |triggers|
        invariant |triggers| == |start.triggers|
        invariant forall i :: t <= i < |triggers| ==> triggers[i] == start.triggers[i]
        invariant forall i: Id :: i in ids <==> i < t && start.triggers[i].state == ExitPending
        invariant Tables() == Run(start, Recoveries(start.triggers, ids, w))
      {
        if triggers[t].state == ExitPending {
          ghost var before := Tables();
          var symbol := triggers[t].symbol;
          RecoverOne(t, w.Stop(), w.For(symbol));
          OneMoreRecovery(start, ids, t, w);
          ids := ids + [t];
        }
      }
    }

    method RecoverOne(t: Id, s: StopSetting, m: Moment)
      requires t < |triggers| && triggers[t].state == ExitPending && m.gate == Some(Ready)
      modifies `orders, `triggers, `events
      ensures Tables() == Step(old(Tables()), RecoverStop(t, s, m))
      ensures |triggers| == |old(triggers)| && forall i :: 0 <= i < |triggers| && i != t ==>
                triggers[i] == old(triggers)[i]
    {
      hide Judge, Supersede, ReEvaluate, EvaluatePosition, Route, Approve, Reject, OutsideOrders;
      var symbol := triggers[t].symbol;
      RecoverMoves(StopTables(), t, Get(positions, symbol), s, m);
      if symbol !in positions {
        SupersedeTrigger(t, ByPositionClosed);
      } else {
        ReEvaluateTrigger(t, positions[symbol], s, m);
      }
    }

    // -------------------------------------------------------------- decisions and approvals

    /** Creates an execution's order, or records why it could not be created. */
    method OrderForExecution(key: ExecutionKey, r: Request)
      modifies `orders, `executions
      ensures RouteTables() == OrderNow(old(RouteTables()), key, r)
    {
      var id, refused := CreateOrder(r);
      if refused.Some? {
        executions := executions[key := Execution(FailedSafe, None, None, refused)];
      } else {
        executions := executions[key := Execution(Ordered, None, id, Some(OrderCreated))];
      }
    }

    method CreateApproval(key: ExecutionKey, d: Decision, m: Moment, e: Entry) returns (ok: bool)
      modifies `approvals, `executions
      ensures var after := AskUser(old(RouteTables()), key, Get(positions, d.symbol), d, m, e);
              && (ok <==> after.Some?)
              && RouteTables() == if ok then after.value else old(RouteTables())
    {
      var scope := ScopeFor(orders, Get(positions, d.symbol), d, m, e);
      if scope.quantity <= 0 {
        return false;
      }
      executions := executions[key := Execution(ApprovalPending, Some(|approvals|), None, None)];
      approvals := approvals + [Approval(key, d, scope, d.validUntil, Awaiting, None, None, 1)];
      return true;
    }

    /** False when the transaction fails; nothing is kept then. */
    method RouteTradingDecision(d: Decision, s: RouteSetting, m: Moment, e: Entry) returns (ok: bool)
      modifies `orders, `approvals, `executions
      ensures ok <==> Route(old(RouteTables()), d, s, Get(positions, d.symbol), m, e).Some?
      ensures Tables() == Step(old(Tables()), RouteDecision(d, s, m, e))
      ensures ok ==> RoutesTo(old(RouteTables()), d, s, Get(positions, d.symbol), m, e, RouteTables())
      ensures !ok <==> Asks(old(RouteTables()), d, s, Get(positions, d.symbol), m, e) && !HasSize(d, m, e)
    {
      hide RoutesTo, Asks, HasSize, RouteBlocked, PlanSale, BuyQuantity, Create, AskUser, EvaluatePosition, RecoverExit,
        Approve, Reject, OutsideOrders;
      RoutingMeans(RouteTables(), d, s, Get(positions, d.symbol), m, e);
      var key := KeyFor(d, s);
      if !d.isTrading || key in executions {
        return true;
      }
      var mode := ModeFor(d.action, s);
      if d.action == Stand {
        executions := executions[key := Execution(NoAction, None, None, Some(NothingToDo))];
        return true;
      }
      if mode == Disabled {
        executions := executions[key := Execution(NotEnabled, None, None, Some(ActionDisabled))];
        return true;
      }
      var blocked := RouteBlocked(orders, Get(positions, d.symbol), d, m, e);
      if blocked.Some? {
        executions := executions[key := Execution(GuardBlocked, None, None, blocked)];
        return true;
      }
      if !s.ordersEnabled {
        executions := executions[key := Execution(ShadowOnlyRecorded, None, None, Some(ShadowOnly))];
        return true;
      }
      if mode == ManualApproval {
        ok := CreateApproval(key, d, m, e);
        return;
      }
      if d.action == Enter {
        var price, quantity := Ask(m), BuyQuantity(e.amount, Ask(m));
        if quantity <= 0 || price.None? {
          executions := executions[key := Execution(GuardBlocked, None, None, Some(OrderSizeNotConfigured))];
        } else {
          OrderForExecution(key, BuyRequest(d, price.value, quantity));
        }
        return true;
      }
      var plan := PlanSale(orders, Get(positions, d.symbol), d, m.quote);
      if plan.position.None? || plan.quantity <= 0 || plan.price.None? {
        executions := executions[key := Execution(GuardBlocked, None, None, Some(SellQuantityAvailable))];
      } else {
        OrderForExecution(key, SellRequest(d, plan.price.value, plan.quantity, plan.position.value.version));
      }
      return true;
    }

    method CloseApproval(id: Id, state: ApprovalState, order: Option<Id>, execution: ExecutionState, result: Code)
      requires id < |approvals|
      modifies `approvals, `executions
      ensures RouteTables() == Close(old(RouteTables()), id, state, order, execution, result)
    {
      var a := approvals[id];
      approvals := approvals[id := a.(state := state, order := order, version := a.version + 1)];
      if state != Approved {
        approvals := approvals[id := approvals[id].(result := Some(result))];
      }
      if a.execution in executions {
        executions := executions[a.execution := executions[a.execution].(state := execution, order := order,
            result := Some(result))];
      }
    }

    /** True when the approval is approved afterwards. */
    method ApproveOrder(id: Id, key: Key, m: Moment, e: Entry) returns (ok: bool)
      modifies `orders, `approvals, `executions
      ensures Tables() == Step(old(Tables()), ApproveApproval(id, key, m, e))
      ensures ok <==> id < |approvals| && approvals[id].state == Approved
      ensures id < |old(approvals)| ==>
                ApprovesTo(old(RouteTables()), id, key, Get(positions, old(approvals)[id].decision.symbol), m, e,
                           RouteTables())
    {
      hide ApprovesTo, ApprovalBlocked, ApprovalRequest, Create, After, EvaluatePosition, RecoverExit, Route, Reject,
        OutsideOrders;
      if id >= |approvals| {
        return false;
      }
      var a := approvals[id];
      ApprovingMeans(RouteTables(), id, key, Get(positions, a.decision.symbol), m, e);
      if a.state != Awaiting {
        return a.state == Approved;
      }
      if a.expiresAt <= m.now {
        approvals := approvals[id := a.(state := Lapsed, result := Some(ApprovalExpired), version := a.version + 1)];
        return false;
      }
      if a.execution !in executions {
        return false;
      }
      var blocked := ApprovalBlocked(orders, Get(positions, a.decision.symbol), a, m, e);
      if blocked.Some? {
        CloseApproval(id, Invalidated, None, ExecutionInvalidated, blocked.value);
        return false;
      }
      ok := ApproveWithOrder(id, key, m);
    }

    method ApproveWithOrder(id: Id, key: Key, m: Moment) returns (ok: bool)
      requires id < |approvals|
      modifies `orders, `approvals, `executions
      ensures RouteTables() == match Create(old(orders), ApprovalRequest(id, old(approvals)[id], key, m))
                               case Refused(code) => Close(old(RouteTables()), id, Invalidated, None, FailedSafe, code)
                               case Known(order) => Close(old(RouteTables()), id, Approved, Some(order), Ordered,
                                                          OrderCreated)
                               case Placed(placed, order) =>
                                 Close(old(RouteTables()).(orders := placed), id, Approved, Some(order), Ordered,
                                       OrderCreated)
      ensures ok <==> !Create(old(orders), ApprovalRequest(id, old(approvals)[id], key, m)).Refused?
    {
      hide ApprovalRequest, Find, Invalid;
      var order, refused := CreateOrder(ApprovalRequest(id, approvals[id], key, m));
      if refused.Some? {
        CloseApproval(id, Invalidated, None, FailedSafe, refused.value);
        return false;
      }
      CloseApproval(id, Approved, order, Ordered, OrderCreated);
      return true;
    }

    /** True when the approval is rejected afterwards. */
    method RejectOrder(id: Id) returns (ok: bool)
      modifies `approvals, `executions
      ensures Tables() == Step(old(Tables()), RejectApproval(id))
      ensures ok <==> id < |approvals| && approvals[id].state == Declined
    {
      hide EvaluatePosition, RecoverExit, Route, Approve, OutsideOrders;
      if id >= |approvals| || approvals[id].state != Awaiting {
        return id < |approvals| && approvals[id].state == Declined;
      }
      CloseApproval(id, Declined, None, ExecutionRejected, UserRejected);
      return true;
    }

    method ExpireStaleApprovals(now: int)
      modifies `approvals, `executions
      ensures Tables() == Step(old(Tables()), ExpireApprovals(now))
    {
      hide EvaluatePosition, RecoverExit, Route, Approve, OutsideOrders;
      ghost var start := RouteTables();
      for id := 0 to |approvals|
        invariant |approvals| == |start.approvals| && orders == start.orders
        invariant RouteTables() == ExpireStale(start, now, id)
      {
        var a := approvals[id];
        if a.state == Awaiting && a.expiresAt <= now {
          approvals := approvals[id := a.(state := Lapsed, result := Some(ApprovalExpired), version := a.version + 1)];
          if a.execution in executions && executions[a.execution].state == ApprovalPending {
            executions := executions[a.execution := executions[a.execution].(state := ExecutionExpired,
                result := Some(ApprovalExpired))];
          }
        }
      }
    }
  }

  predicate IsOpen(positions: PositionTable, symbol: Symbol) {
    symbol in positions && positions[symbol].state == Held && positions[symbol].quantity > 0
  }

  function Evaluations(order: seq<Symbol>, w: World): seq<Op> {
    seq(|order|, i requires 0 <= i < |order| => EvaluateStop(order[i], w.Stop(), w.For(order[i])))
  }

  function Recoveries(triggers: seq<Trigger>, ids: seq<Id>, w: World): seq<Op> {
    seq(|ids|, i requires 0 <= i < |ids| =>
      RecoverStop(ids[i], w.Stop(), if ids[i] < |triggers| then w.For(triggers[ids[i]].symbol) else w.For("")))
  }

  ghost predicate RefusedAt(d: Desk, symbol: Symbol, w: World) {
    IsOpen(d.positions, symbol) && Refuses(d.triggers, symbol, d.positions[symbol], w.Stop(), w.For(symbol))
  }

  /** Evaluating one symbol is a step of the desk and leaves the others as likely to be refused as they were. */
  lemma TickStep(before: Desk, after: Desk, symbol: Symbol, w: World, todo: set<Symbol>)
    requires IsOpen(before.positions, symbol) && symbol !in todo
    requires var b := EvaluatePosition(BoardOf(before), symbol, before.positions[symbol], w.Stop(), w.For(symbol));
             b.Some? && after == WithBoard(before, b.value)
    ensures after == Step(before, EvaluateStop(symbol, w.Stop(), w.For(symbol)))
    ensures !RefusedAt(before, symbol, w)
    ensures forall other :: other in todo ==> RefusedAt(after, other, w) == RefusedAt(before, other, w)
  {
    hide EvaluatePosition, Refuses, OnlySymbol, RecoverExit, Route, Approve, Reject;
    RefusedExactly(BoardOf(before), symbol, before.positions[symbol], w.Stop(), w.For(symbol));
    EvaluateOnlySymbol(BoardOf(before), symbol, before.positions[symbol], w.Stop(), w.For(symbol));
    forall other | other in todo && IsOpen(before.positions, other)
      ensures RefusedAt(after, other, w) == RefusedAt(before, other, w)
    {
      OthersRefusedAlike(before.triggers, after.triggers, symbol, other, before.positions[other], w.Stop(),
                         w.For(other));
    }
  }

  lemma NoEvaluations(d: Desk, w: World)
    ensures Run(d, Evaluations([], w)) == d
  {
  }

  lemma NoRecoveries(d: Desk, w: World)
    ensures Run(d, Recoveries(d.triggers, [], w)) == d
  {
  }

  lemma OneMoreEvaluation(d: Desk, order: seq<Symbol>, symbol: Symbol, w: World)
    ensures Run(d, Evaluations(order + [symbol], w))
         == Step(Run(d, Evaluations(order, w)), EvaluateStop(symbol, w.Stop(), w.For(symbol)))
  {
    hide Step;
    var ops := Evaluations(order + [symbol], w);
    assert ops[..|order|] == Evaluations(order, w);
  }

  lemma OneMoreRecovery(d: Desk, ids: seq<Id>, t: Id, w: World)
    requires t < |d.triggers|
    ensures Run(d, Recoveries(d.triggers, ids + [t], w))
         == Step(Run(d, Recoveries(d.triggers, ids, w)), RecoverStop(t, w.Stop(), w.For(d.triggers[t].symbol)))
  {
    hide Step;
    var ops := Recoveries(d.triggers, ids + [t], w);
    assert ops[..|ids|] == Recoveries(d.triggers, ids, w);
  }
}
