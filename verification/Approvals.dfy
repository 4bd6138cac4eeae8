/**
 * Routing a decision to an order, to an approval or to nothing, and what becomes
 * of an approval: approved into an order, rejected, expired or invalidated.
 */
module Approvals {
  import opened Common
  import opened BrokerOrders
  import opened Positions
  import opened OrderCreation
  import opened Guards

  datatype ApprovalState = Awaiting | Approved | Declined | Lapsed | Invalidated

  /** What the approval was asked for; never written again. */
  datatype Scope = Scope(reference: Option<real>, quantity: int, positionVersion: Option<nat>)

  datatype Approval = Approval(
    execution: ExecutionKey,
    decision: Decision,
    scope: Scope,
    expiresAt: int,
    state: ApprovalState,
    order: Option<Id>,
    result: Option<Code>,
    version: nat)

  /** A decision is routed once per action and pair of policy versions. */
  datatype ExecutionKey = ExecutionKey(decision: Id, action: Action, policy: Option<string>, riskPolicy: Option<string>)

  datatype ExecutionState =
    | NoAction | NotEnabled | GuardBlocked | ShadowOnlyRecorded | ApprovalPending | ExecutionExpired | ExecutionRejected
    | ExecutionInvalidated | Ordered | FailedSafe

  datatype Execution = Execution(state: ExecutionState, approval: Option<Id>, order: Option<Id>, result: Option<Code>)

  /** The tables that routing and approving write. */
  datatype Book = Book(orders: seq<OrderRow>, approvals: seq<Approval>, executions: map<ExecutionKey, Execution>)

  datatype Mode = Automatic | ManualApproval | Disabled

  datatype RouteSetting = RouteSetting(
    policy: Option<string>,
    riskPolicy: Option<string>,
    buy: Mode,
    partialSell: Mode,
    fullSell: Mode,
    fixedStop: Mode,
    ordersEnabled: bool)

  function ModeFor(action: Action, s: RouteSetting): Mode {
    match action
    case Enter => s.buy
    case PartialSell => s.partialSell
    case FullSell => s.fullSell
    case StopOut => s.fixedStop
    case _ => Disabled
  }

  function KeyFor(d: Decision, s: RouteSetting): ExecutionKey {
    ExecutionKey(d.id, d.action, s.policy, s.riskPolicy)
  }

  function RouteBlocked(orders: seq<OrderRow>, position: Option<Position>, d: Decision, m: Moment,
                        e: Entry): Option<Code> {
    if d.action == Enter then EntryBlocked(d, m, e)
    else if Sells(d.action) then SaleBlocked(orders, d, PlanSale(orders, position, d, m.quote), None, None, m)
    else Some(ActionNotImplemented)
  }

  // ---------------------------------------------------------------- routing

  function Put(b: Book, key: ExecutionKey, state: ExecutionState, result: Option<Code>): Book {
    b.(executions := b.executions[key := Execution(state, None, None, result)])
  }

  function Ask(m: Moment): Option<real> {
    if m.quote.Some? then m.quote.value.ask else None
  }

  function BuyRequest(d: Decision, price: real, quantity: int): Request {
    Request(BuyKey(d.id), ByDecision(d.id, Enter, d.symbol, d.venue, price, quantity, None), d.symbol, d.venue, Buy,
            Limit, Some(price),
            quantity)
  }

  function SellRequest(d: Decision, price: real, quantity: int, positionVersion: nat): Request {
    Request(SellKey(d.id, d.action),
            ByDecision(d.id, d.action, d.symbol, d.venue, price, quantity, Some(positionVersion)), d.symbol,
            d.venue, Sell, Limit, Some(price), quantity)
  }

  /** Creates an order for an execution, or records why it could not be created. */
  function OrderNow(b: Book, key: ExecutionKey, r: Request): Book {
    match Create(b.orders, r)
    case Refused(code) => Put(b, key, FailedSafe, Some(code))
    case Known(id) => b.(executions := b.executions[key := Execution(Ordered, None, Some(id), Some(OrderCreated))])
    case Placed(orders, id) =>
      Book(orders, b.approvals, b.executions[key := Execution(Ordered, None, Some(id), Some(OrderCreated))])
  }

  function BuyNow(b: Book, key: ExecutionKey, d: Decision, m: Moment, e: Entry): Book {
    var price, quantity := Ask(m), BuyQuantity(e.amount, Ask(m));
    if quantity <= 0 || price.None? then Put(b, key, GuardBlocked, Some(OrderSizeNotConfigured))
    else OrderNow(b, key, BuyRequest(d, price.value, quantity))
  }

  function SellNow(b: Book, key: ExecutionKey, d: Decision, plan: SellPlan): Book {
    if plan.position.None? || plan.quantity <= 0 || plan.price.None?
    then Put(b, key, GuardBlocked, Some(SellQuantityAvailable))
    else OrderNow(b, key, SellRequest(d, plan.price.value, plan.quantity, plan.position.value.version))
  }

  function ScopeFor(orders: seq<OrderRow>, position: Option<Position>, d: Decision, m: Moment, e: Entry): Scope {
    if d.action == Enter then Scope(Ask(m), BuyQuantity(e.amount, Ask(m)), None)
    else
      var plan := PlanSale(orders, position, d, m.quote);
      Scope(plan.price, plan.quantity, if position.Some? then Some(position.value.version) else None)
  }

  /** Asks the user. None when nothing could be bought or sold: the caller's transaction fails. */
  function AskUser(b: Book, key: ExecutionKey, position: Option<Position>, d: Decision, m: Moment,
                   e: Entry): Option<Book> {
    var scope := ScopeFor(b.orders, position, d, m, e);
    if scope.quantity <= 0 then None
    else
      Some(b.(approvals := b.approvals + [Approval(key, d, scope, d.validUntil, Awaiting, None, None, 1)],
              executions := b.executions[key := Execution(ApprovalPending, Some(|b.approvals|), None, None)]))
  }

  /** Routes a decision. None when the transaction fails and nothing is kept. */
  function Route(b: Book, d: Decision, s: RouteSetting, position: Option<Position>, m: Moment, e: Entry): Option<Book> {
    var key, mode := KeyFor(d, s), ModeFor(d.action, s);
    if !d.isTrading || key in b.executions then Some(b)
    else if d.action == Stand then Some(Put(b, key, NoAction, Some(NothingToDo)))
    else if mode == Disabled then Some(Put(b, key, NotEnabled, Some(ActionDisabled)))
    else
      var blocked := RouteBlocked(b.orders, position, d, m, e);
      if blocked.Some? then Some(Put(b, key, GuardBlocked, blocked))
      else if !s.ordersEnabled then Some(Put(b, key, ShadowOnlyRecorded, Some(ShadowOnly)))
      else if mode == ManualApproval then AskUser(b, key, position, d, m, e)
      else if d.action == Enter then Some(BuyNow(b, key, d, m, e))
      else Some(SellNow(b, key, d, PlanSale(b.orders, position, d, m.quote)))
  }

  // ---------------------------------------------------------------- approving

  function Price(d: Decision, m: Moment): Option<real> {
    if m.quote.None? then None else if d.action == Enter then m.quote.value.ask
    else if Sells(d.action) then m.quote.value.bid else None
  }

  function ApprovalBlocked(orders: seq<OrderRow>, position: Option<Position>, a: Approval, m: Moment,
                           e: Entry): Option<Code> {
    var d := a.decision;
    var guard :=
      if d.action == Enter then EntryBlocked(d, m, e)
      else if Sells(d.action) then
        SaleBlocked(orders, d, PlanSale(orders, position, d, m.quote), a.scope.positionVersion, Some(a.scope.quantity),
                    m)
      else Some(ActionNotImplemented);
    if guard.Some? then guard
    else if !DeviationOk(a.scope.reference, Price(d, m), e.maxDeviationPct) then Some(PriceDeviation)
    else if a.scope.quantity <= 0 then Some(OrderSizeNotConfigured)
    else None
  }

  function ApprovalRequest(id: Id, a: Approval, key: Key, m: Moment): Request {
    var d := a.decision;
    Request(key,
            ByApproval(id, d.id, d.action, d.symbol, d.venue, Price(d, m), a.scope.quantity, a.scope.positionVersion,
                       if m.quote.Some? then Some(m.quote.value.id) else None, key),
            d.symbol, d.venue, if d.action == Enter then Buy else Sell, Limit, Price(d, m), a.scope.quantity)
  }

  /** Ends an approval together with its execution. */
  function Close(b: Book, id: Id, state: ApprovalState, order: Option<Id>, execution: ExecutionState,
                 result: Code): Book
    requires id < |b.approvals|
  {
    var a := b.approvals[id];
    b.(approvals := b.approvals[id := a.(state := state, order := order, version := a.version + 1,
                                         result := if state == Approved then a.result else Some(result))],
       executions := if a.execution in b.executions
                     then b.executions[a.execution := b.executions[a.execution].(state := execution, order := order,
                         result := Some(result))]
                     else b.executions)
  }

  /** An approval runs out, its execution along with it or not. */
  function Lapse(b: Book, id: Id, withExecution: bool): Book
    requires id < |b.approvals|
  {
    var a := b.approvals[id];
    b.(approvals := b.approvals[id := a.(state := Lapsed, result := Some(ApprovalExpired), version := a.version + 1)],
       executions := if withExecution && a.execution in b.executions
                     then b.executions[a.execution := b.executions[a.execution].(state := ExecutionExpired,
                         result := Some(ApprovalExpired))]
                     else b.executions)
  }

  /** What an approval attempt on the row does to it. */
  function Approve(b: Book, id: Id, key: Key, position: Option<Position>, m: Moment, e: Entry): Book {
    if id >= |b.approvals| || b.approvals[id].state != Awaiting then b
    else
      var a := b.approvals[id];
      if a.expiresAt <= m.now then Lapse(b, id, false)
      else if a.execution !in b.executions then b
      else
        var blocked := ApprovalBlocked(b.orders, position, a, m, e);
        if blocked.Some? then Close(b, id, Invalidated, None, ExecutionInvalidated, blocked.value)
        else match Create(b.orders, ApprovalRequest(id, a, key, m))
          case Refused(code) => Close(b, id, Invalidated, None, FailedSafe, code)
          case Known(order) => Close(b, id, Approved, Some(order), Ordered, OrderCreated)
          case Placed(orders, order) => Close(b.(orders := orders), id, Approved, Some(order), Ordered, OrderCreated)
  }

  function Reject(b: Book, id: Id): Book {
    if id >= |b.approvals| || b.approvals[id].state != Awaiting then b
    else Close(b, id, Declined, None, ExecutionRejected, UserRejected)
  }

  function ExpireOne(b: Book, id: Id, now: int): Book
    requires id < |b.approvals|
  {
    var a := b.approvals[id];
    if a.state != Awaiting || a.expiresAt > now then b
    else Lapse(b, id, a.execution in b.executions && b.executions[a.execution].state == ApprovalPending)
  }

  /** Expires the stale approvals among the first n. */
  function ExpireStale(b: Book, now: int, n: nat): (after: Book)
    requires n <= |b.approvals|
    ensures |after.approvals| == |b.approvals|
  {
    if n == 0 then b else ExpireOne(ExpireStale(b, now, n - 1), n - 1, now)
  }

  // ---------------------------------------------------------------- what every call keeps

  /**
   * Which execution states go with an approval's state. An approval that is found
   * expired when approved leaves its execution pending.
   */
  predicate Agree(a: ApprovalState, e: ExecutionState) {
    match a
    case Awaiting => e == ApprovalPending
    case Approved => e == Ordered
    case Declined => e == ExecutionRejected
    case Lapsed => e == ExecutionExpired || e == ApprovalPending
    case Invalidated => e == ExecutionInvalidated || e == FailedSafe
  }

  predicate Linked(b: Book, id: Id)
    requires id < |b.approvals|
  {
    var a := b.approvals[id];
    && a.execution in b.executions
    && b.executions[a.execution].approval == Some(id)
    && Agree(a.state, b.executions[a.execution].state)
    && (a.state == Approved <==> a.order.Some?)
    && b.executions[a.execution].order == a.order
  }

  predicate OrderedByApproval(row: OrderRow, id: Id) {
    row.payload.ByApproval? && row.payload.approval == id
  }

  /** Approved approvals and the orders made for approvals belong together one to one. */
  predicate ApprovalsMatch(orders: seq<OrderRow>, approvals: seq<Approval>) {
    && (forall a :: 0 <= a < |approvals| && approvals[a].order.Some? ==>
          approvals[a].order.value < |orders| && OrderedByApproval(orders[approvals[a].order.value], a))
    && (forall i :: 0 <= i < |orders| && orders[i].payload.ByApproval? ==>
          orders[i].payload.approval < |approvals| && approvals[orders[i].payload.approval].order == Some(i))
  }

  /** An automatic order sits under the key of its decision and action. */
  predicate AutomaticKeyed(row: OrderRow) {
    row.payload.ByDecision? ==>
      row.key == if row.payload.action == Enter then BuyKey(row.payload.decision)
                 else SellKey(row.payload.decision, row.payload.action)
  }

  ghost predicate BookInv(b: Book) {
    && DistinctKeys(b.orders)
    && ApprovalsMatch(b.orders, b.approvals)
    && (forall i :: 0 <= i < |b.orders| ==> AutomaticKeyed(b.orders[i]))
    && (forall a :: 0 <= a < |b.approvals| ==> Linked(b, a))
  }

  /** Approvals keep what they ask for, and ended ones never change. */
  ghost predicate ApprovalsAdvance(before: seq<Approval>, after: seq<Approval>) {
    && |before| <= |after|
    && forall a :: 0 <= a < |before| ==>
         && after[a].execution == before[a].execution && after[a].decision == before[a].decision
         && after[a].scope == before[a].scope && after[a].expiresAt == before[a].expiresAt
         && (before[a].state != Awaiting ==> after[a] == before[a])
  }

  /** One new execution row, and at most one new order that no approval asked for. */
  lemma NewExecutionKeeps(b: Book, key: ExecutionKey, row: Execution, orders: seq<OrderRow>)
    requires BookInv(b) && key !in b.executions
    requires Grows(b.orders, orders) && DistinctKeys(orders)
    requires forall i :: |b.orders| <= i < |orders| ==> !orders[i].payload.ByApproval? && AutomaticKeyed(orders[i])
    ensures BookInv(Book(orders, b.approvals, b.executions[key := row]))
  {
    OtherOrdersKeepApprovals(b, orders);
    var after := Book(orders, b.approvals, b.executions[key := row]);
    forall a | 0 <= a < |b.approvals|
      ensures Linked(after, a)
    {
      assert Linked(b, a);
    }
  }

  /** Whatever else happens to the order table, as long as no row is written in an approval's name. */
  lemma OtherOrdersKeepApprovals(b: Book, orders: seq<OrderRow>)
    requires BookInv(b) && Grows(b.orders, orders) && DistinctKeys(orders)
    requires forall i :: |b.orders| <= i < |orders| ==> !orders[i].payload.ByApproval? && AutomaticKeyed(orders[i])
    ensures BookInv(b.(orders := orders))
  {
    forall a | 0 <= a < |b.approvals|
      ensures Linked(b.(orders := orders), a)
    {
      assert Linked(b, a);
    }
    forall i | 0 <= i < |orders|
      ensures AutomaticKeyed(orders[i])
    {
      if i < |b.orders| {
        assert AutomaticKeyed(b.orders[i]);
      }
    }
  }

  lemma OrderNowKeeps(b: Book, key: ExecutionKey, r: Request)
    requires BookInv(b) && key !in b.executions
    requires r.payload.ByDecision? && AutomaticKeyed(NewRow(r))
    ensures BookInv(OrderNow(b, key, r))
    ensures OrderNow(b, key, r).approvals == b.approvals && OrderNow(b, key, r).orders == After(b.orders, r)
  {
    hide BookInv, Invalid, Find, AutomaticKeyed;
    CreateKeepsDistinct(b, r);
    var state := match Create(b.orders, r)
      case Refused(code) => Execution(FailedSafe, None, None, Some(code))
      case Known(id) => Execution(Ordered, None, Some(id), Some(OrderCreated))
      case Placed(_, id) => Execution(Ordered, None, Some(id), Some(OrderCreated));
    NewExecutionKeeps(b, key, state, After(b.orders, r));
    assert OrderNow(b, key, r) == Book(After(b.orders, r), b.approvals, b.executions[key := state]);
  }

  lemma CreateKeepsDistinct(b: Book, r: Request)
    requires BookInv(b)
    ensures DistinctKeys(After(b.orders, r)) && Grows(b.orders, After(b.orders, r))
  {
    CreateKeepsKeysDistinct(b.orders, r);
  }

  lemma AskUserKeeps(b: Book, key: ExecutionKey, position: Option<Position>, d: Decision, m: Moment, e: Entry)
    requires BookInv(b) && key !in b.executions && AskUser(b, key, position, d, m, e).Some?
    ensures var after := AskUser(b, key, position, d, m, e).value;
            BookInv(after) && after.orders == b.orders && ApprovalsAdvance(b.approvals, after.approvals)
  {
    hide ScopeFor;
    var after := AskUser(b, key, position, d, m, e).value;
    forall a | 0 <= a < |after.approvals|
      ensures Linked(after, a)
    {
      if a < |b.approvals| {
        assert Linked(b, a);
      }
    }
  }

  /** The order a routed decision creates, if any. */
  function Routed(b: Book, d: Decision, s: RouteSetting, position: Option<Position>, m: Moment,
                  e: Entry): Option<Request> {
    if !d.isTrading || KeyFor(d, s) in b.executions || d.action == Stand || ModeFor(d.action, s) != Automatic
       || !s.ordersEnabled
       || RouteBlocked(b.orders, position, d, m, e).Some? then None
    else if d.action == Enter then
      if BuyQuantity(e.amount, Ask(m)) > 0 && Ask(m).Some?
      then Some(BuyRequest(d, Ask(m).value, BuyQuantity(e.amount, Ask(m)))) else None
    else
      var plan := PlanSale(b.orders, position, d, m.quote);
      if plan.position.Some? && plan.quantity > 0 && plan.price.Some?
      then Some(SellRequest(d, plan.price.value, plan.quantity, plan.position.value.version)) else None
  }

  lemma RouteKeeps(b: Book, d: Decision, s: RouteSetting, position: Option<Position>, m: Moment, e: Entry)
    requires BookInv(b) && Route(b, d, s, position, m, e).Some?
    ensures var after := Route(b, d, s, position, m, e).value;
            && BookInv(after) && ApprovalsAdvance(b.approvals, after.approvals)
            && after.orders == match Routed(b, d, s, position, m, e) case None => b.orders
                               case Some(r) => After(b.orders, r)
  {
    hide BookInv, RouteBlocked, PlanSale, BuyQuantity, OrderNow, AskUser, After, ModeFor;
    var key := KeyFor(d, s);
    if d.isTrading && key !in b.executions {
      var plan := PlanSale(b.orders, position, d, m.quote);
      match Routed(b, d, s, position, m, e)
      case Some(r) =>
        OrderNowKeeps(b, key, r);
      case None =>
        if Route(b, d, s, position, m, e) == AskUser(b, key, position, d, m, e) {
          AskUserKeeps(b, key, position, d, m, e);
        } else {
          SameKeys(b);
          NewExecutionKeeps(b, key, Route(b, d, s, position, m, e).value.executions[key], b.orders);
        }
    }
  }

  lemma SameKeys(b: Book)
    requires BookInv(b)
    ensures DistinctKeys(b.orders)
  {
  }

  /** Ending an awaiting approval without an order. */
  lemma CloseKeeps(b: Book, id: Id, state: ApprovalState, execution: ExecutionState, result: Code)
    requires BookInv(b) && id < |b.approvals| && b.approvals[id].state == Awaiting
    requires state != Awaiting && state != Approved && Agree(state, execution)
    ensures var after := Close(b, id, state, None, execution, result);
            BookInv(after) && after.orders == b.orders && ApprovalsAdvance(b.approvals, after.approvals)
  {
    var after := Close(b, id, state, None, execution, result);
    assert Linked(b, id);
    forall a | 0 <= a < |after.approvals|
      ensures Linked(after, a)
    {
      assert Linked(b, a);
    }
  }

  /** An order made under an awaiting approval's name is a new row, whatever key the user supplied. */
  lemma ApprovalMakesItsOwnOrder(b: Book, id: Id, key: Key, m: Moment)
    requires BookInv(b) && id < |b.approvals| && b.approvals[id].state == Awaiting
    ensures !Create(b.orders, ApprovalRequest(id, b.approvals[id], key, m)).Known?
  {
    assert Linked(b, id);
  }

  lemma ApproveWithOrderKeeps(b: Book, id: Id, key: Key, m: Moment)
    requires BookInv(b) && id < |b.approvals| && b.approvals[id].state == Awaiting
    requires Create(b.orders, ApprovalRequest(id, b.approvals[id], key, m)).Placed?
    ensures var r := ApprovalRequest(id, b.approvals[id], key, m);
            var after := Close(b.(orders := b.orders + [NewRow(r)]), id, Approved, Some(|b.orders|), Ordered,
                               OrderCreated);
            BookInv(after) && ApprovalsAdvance(b.approvals, after.approvals)
  {
    var r := ApprovalRequest(id, b.approvals[id], key, m);
    var after := Close(b.(orders := b.orders + [NewRow(r)]), id, Approved, Some(|b.orders|), Ordered, OrderCreated);
    CreateKeepsKeysDistinct(b.orders, r);
    assert Linked(b, id);
    forall a | 0 <= a < |after.approvals|
      ensures Linked(after, a)
    {
      assert Linked(b, a);
    }
    forall i | 0 <= i < |after.orders|
      ensures AutomaticKeyed(after.orders[i])
    {
      if i < |b.orders| {
        assert AutomaticKeyed(b.orders[i]);
      }
    }
  }

  /** The order an approval attempt creates, if any. */
  function ApprovedRequest(b: Book, id: Id, key: Key, position: Option<Position>, m: Moment,
                           e: Entry): Option<Request> {
    if id >= |b.approvals| || b.approvals[id].state != Awaiting || b.approvals[id].expiresAt <= m.now
       || b.approvals[id].execution !in b.executions
       || ApprovalBlocked(b.orders, position, b.approvals[id], m, e).Some? then None
    else Some(ApprovalRequest(id, b.approvals[id], key, m))
  }

  lemma ApproveKeeps(b: Book, id: Id, key: Key, position: Option<Position>, m: Moment, e: Entry)
    requires BookInv(b)
    ensures var after := Approve(b, id, key, position, m, e);
            && BookInv(after) && ApprovalsAdvance(b.approvals, after.approvals)
            && after.orders == match ApprovedRequest(b, id, key, position, m, e) case None => b.orders
                               case Some(r) => After(b.orders, r)
  {
    hide BookInv, ApprovalBlocked, ApprovalRequest, Invalid;
    if id < |b.approvals| && b.approvals[id].state == Awaiting {
      var a := b.approvals[id];
      if a.expiresAt <= m.now {
        LapseKeeps(b, id, false);
      } else if a.execution in b.executions {
        var blocked := ApprovalBlocked(b.orders, position, a, m, e);
        if blocked.Some? {
          CloseKeeps(b, id, Invalidated, ExecutionInvalidated, blocked.value);
        } else {
          ApprovalMakesItsOwnOrder(b, id, key, m);
          match Create(b.orders, ApprovalRequest(id, a, key, m))
          case Refused(code) => CloseKeeps(b, id, Invalidated, FailedSafe, code);
          case Placed(_, _) => ApproveWithOrderKeeps(b, id, key, m);
        }
      }
    }
  }

  lemma LapseKeeps(b: Book, id: Id, withExecution: bool)
    requires BookInv(b) && id < |b.approvals| && b.approvals[id].state == Awaiting
    ensures var after := Lapse(b, id, withExecution);
            BookInv(after) && after.orders == b.orders && ApprovalsAdvance(b.approvals, after.approvals)
  {
    var after := Lapse(b, id, withExecution);
    forall a | 0 <= a < |after.approvals|
      ensures Linked(after, a)
    {
      assert Linked(b, a) && Linked(b, id);
    }
  }

  lemma RejectKeeps(b: Book, id: Id)
    requires BookInv(b)
    ensures BookInv(Reject(b, id)) && Reject(b, id).orders == b.orders
            && ApprovalsAdvance(b.approvals, Reject(b, id).approvals)
  {
    hide BookInv, Close;
    if id < |b.approvals| && b.approvals[id].state == Awaiting {
      CloseKeeps(b, id, Declined, ExecutionRejected, UserRejected);
    }
  }

  lemma {:induction false} ExpireKeeps(b: Book, now: int, n: nat)
    requires n <= |b.approvals| && BookInv(b)
    ensures var after := ExpireStale(b, now, n);
            && BookInv(after) && after.orders == b.orders && ApprovalsAdvance(b.approvals, after.approvals)
            && (forall a :: 0 <= a < n ==> after.approvals[a].state != Awaiting || after.approvals[a].expiresAt > now)
            && (forall a :: n <= a < |b.approvals| ==> after.approvals[a] == b.approvals[a])
  {
    hide BookInv;
    if n > 0 {
      ExpireKeeps(b, now, n - 1);
      var before := ExpireStale(b, now, n - 1);
      var a := before.approvals[n - 1];
      if a.state == Awaiting && a.expiresAt <= now {
        LapseKeeps(before, n - 1, true);
        AwaitingIsPending(before, n - 1);
      }
    }
  }

  lemma AwaitingIsPending(b: Book, id: Id)
    requires BookInv(b) && id < |b.approvals| && b.approvals[id].state == Awaiting
    ensures b.approvals[id].execution in b.executions
            && b.executions[b.approvals[id].execution].state == ApprovalPending
  {
    assert Linked(b, id);
  }

  // ---------------------------------------------------------------- what it means for trading

  /** No two approved approvals share an order. */
  lemma ApprovedOrdersDiffer(b: Book, a: Id, c: Id)
    requires BookInv(b) && a < |b.approvals| && c < |b.approvals| && a != c
    requires b.approvals[a].state == Approved && b.approvals[c].state == Approved
    ensures b.approvals[a].order.Some? && b.approvals[a].order != b.approvals[c].order
  {
    assert Linked(b, a) && Linked(b, c);
  }

  /** Each approval, and each automatic decision and action, has at most one order. */
  lemma OneOrderPerSource(b: Book, i: Id, j: Id)
    requires BookInv(b) && i < |b.orders| && j < |b.orders| && i != j
    ensures b.orders[i].payload.ByApproval? && b.orders[j].payload.ByApproval? ==>
              b.orders[i].payload.approval != b.orders[j].payload.approval
    ensures b.orders[i].payload.ByDecision? && b.orders[j].payload.ByDecision? ==>
              b.orders[i].payload.decision != b.orders[j].payload.decision
              || b.orders[i].payload.action != b.orders[j].payload.action
  {
    assert AutomaticKeyed(b.orders[i]) && AutomaticKeyed(b.orders[j]);
  }

  /** Every sale a routed decision creates is covered by the managed, unreserved part of the position. */
  lemma RoutedSaleIsCovered(b: Book, d: Decision, s: RouteSetting, position: Option<Position>, m: Moment, e: Entry)
    requires var r := Routed(b, d, s, position, m, e);
             r.Some? && r.value.side == Sell
    ensures position.Some?
    ensures Covered(b.orders, d.symbol, position.value, Routed(b, d, s, position, m, e).value.quantity)
  {
    hide PlanSale, SaleBlocked, Covered;
    DecisionSaleIsCovered(b.orders, position, d, m.quote, None, None, m);
  }

  /** The same for a sale created by an approval, at the moment of the approval. */
  lemma ApprovedSaleIsCovered(b: Book, id: Id, key: Key, position: Option<Position>, m: Moment, e: Entry)
    requires var r := ApprovedRequest(b, id, key, position, m, e);
             r.Some? && r.value.side == Sell
    ensures position.Some?
    ensures Covered(b.orders, b.approvals[id].decision.symbol, position.value,
                    ApprovedRequest(b, id, key, position, m, e).value.quantity)
  {
    hide PlanSale, SaleBlocked, Covered;
    var a := b.approvals[id];
    DecisionSaleIsCovered(b.orders, position, a.decision, m.quote, a.scope.positionVersion, Some(a.scope.quantity), m);
  }

  /** An automatic entry spends at most the entry amount, so both exposures stay within their limits. */
  lemma RoutedEntryIsBounded(b: Book, d: Decision, s: RouteSetting, position: Option<Position>, m: Moment, e: Entry)
    requires var r := Routed(b, d, s, position, m, e);
             r.Some? && r.value.side == Buy
    ensures var r := Routed(b, d, s, position, m, e).value;
            && r.limitPrice.Some? && e.amount.Some?
            && r.quantity as real * r.limitPrice.value <= e.amount.value
            && e.symbolExposure + r.quantity as real * r.limitPrice.value <= e.maxPerSymbol
            && e.totalExposure + r.quantity as real * r.limitPrice.value <= e.maxTotal
  {
    hide BuyQuantity, PlanSale, SaleBlocked, EntryBlocked;
    EntrySpendsAtMostAmount(e.amount, Ask(m));
    EntryStaysWithinLimits(d, m, e, Ask(m));
  }

  /**
   * An entry asked for at one moment and approved at a later one, over whatever
   * happened to the approval table between, spends at most the entry amount of
   * the first moment plus the deviation tolerated at the second.
   */
  lemma ApprovedEntryIsBounded(asked: Book, d: Decision, s: RouteSetting, position: Option<Position>, m: Moment,
                               e: Entry,
                               later: Book, key: Key, positionThen: Option<Position>, then_: Moment, entryThen: Entry)
    requires d.action == Enter && Route(asked, d, s, position, m, e).Some?
    requires var booked := Route(asked, d, s, position, m, e).value;
             && |booked.approvals| == |asked.approvals| + 1
             && ApprovalsAdvance(booked.approvals, later.approvals)
    requires ApprovedRequest(later, |asked.approvals|, key, positionThen, then_, entryThen).Some?
    ensures var r := ApprovedRequest(later, |asked.approvals|, key, positionThen, then_, entryThen).value;
            && r.side == Buy && r.limitPrice.Some? && e.amount.Some?
            && r.quantity as real * r.limitPrice.value <= e.amount.value * (1.0 + entryThen.maxDeviationPct / 100.0)
  {
    hide BuyQuantity, PlanSale, SaleBlocked, EntryBlocked, DeviationOk, RouteBlocked, Create;
    var id := |asked.approvals|;
    assert later.approvals[id].scope == Scope(Ask(m), BuyQuantity(e.amount, Ask(m)), None);
    EntrySpendsAtMostAmount(e.amount, Ask(m));
    DeviationNeedsPrices(Ask(m), Price(d, then_), entryThen.maxDeviationPct);
    DeviatedEntryIsBounded(e.amount, Ask(m), Price(d, then_), entryThen.maxDeviationPct);
  }

  lemma DeviationNeedsPrices(reference: Option<real>, current: Option<real>, maxPct: real)
    requires DeviationOk(reference, current, maxPct)
    ensures reference.Some? && current.Some?
  {
  }

  // ---------------------------------------------------------------- ended approvals and their executions

  /** An ended approval and its execution stay as they are. */
  ghost predicate EndedPairsStay(before: Book, after: Book) {
    && |before.approvals| <= |after.approvals|
    && forall a :: 0 <= a < |before.approvals| && before.approvals[a].state != Awaiting ==>
         && after.approvals[a] == before.approvals[a]
         && var key := before.approvals[a].execution;
            key in before.executions ==> key in after.executions && after.executions[key] == before.executions[key]
  }

  /** Only the approval and the execution of one awaiting row were written. */
  ghost predicate WritesOnly(before: Book, after: Book, id: Id) {
    && id < |before.approvals| == |after.approvals|
    && (forall a :: 0 <= a < |before.approvals| && a != id ==> after.approvals[a] == before.approvals[a])
    && (forall key :: key in before.executions && key != before.approvals[id].execution ==>
          key in after.executions && after.executions[key] == before.executions[key])
  }

  lemma WritingOneKeepsEnded(before: Book, after: Book, id: Id)
    requires BookInv(before) && WritesOnly(before, after, id) && before.approvals[id].state == Awaiting
    ensures EndedPairsStay(before, after)
  {
    forall a | 0 <= a < |before.approvals| && before.approvals[a].state != Awaiting
      ensures before.approvals[a].execution != before.approvals[id].execution
    {
      ExecutionsDiffer(before, a, id);
    }
  }

  /** Routing writes only a new execution and at most one new approval. */
  lemma RouteWritesNothingOld(b: Book, d: Decision, s: RouteSetting, position: Option<Position>, m: Moment, e: Entry)
    requires Route(b, d, s, position, m, e).Some?
    ensures var after := Route(b, d, s, position, m, e).value;
            && b.approvals <= after.approvals
            && forall key :: key in b.executions ==>
                 key in after.executions && after.executions[key] == b.executions[key]
  {
    hide RouteBlocked, PlanSale, BuyQuantity, Create, ScopeFor, ModeFor;
  }

  lemma ApproveWritesOne(b: Book, id: Id, key: Key, position: Option<Position>, m: Moment, e: Entry)
    requires id < |b.approvals| && b.approvals[id].state == Awaiting
    ensures WritesOnly(b, Approve(b, id, key, position, m, e), id)
    ensures Approve(b, id, key, position, m, e).approvals[id].state == Lapsed <==> b.approvals[id].expiresAt <= m.now
  {
    hide ApprovalBlocked, ApprovalRequest, Create;
  }

  lemma RejectWritesOne(b: Book, id: Id)
    requires id < |b.approvals| && b.approvals[id].state == Awaiting
    ensures WritesOnly(b, Reject(b, id), id) && Reject(b, id).approvals[id].state == Declined
  {
  }

  lemma ExpireKeepsEnded(b: Book, now: int)
    requires BookInv(b)
    ensures EndedPairsStay(b, ExpireStale(b, now, |b.approvals|))
  {
    hide BookInv, ExpireStale, Linked;
    var after := ExpireStale(b, now, |b.approvals|);
    ExpireKeeps(b, now, |b.approvals|);
    forall a | 0 <= a < |b.approvals| && b.approvals[a].state != Awaiting
      ensures after.approvals[a] == b.approvals[a]
      ensures var key := b.approvals[a].execution;
              key in b.executions ==> key in after.executions && after.executions[key] == b.executions[key]
    {
      if b.approvals[a].execution in b.executions {
        ExpireLeavesEnded(b, now, |b.approvals|, a);
      }
    }
  }

  /** A sweep that reaches an approval in time ends its execution with it. */
  lemma {:induction false} ExpireEndsBoth(b: Book, now: int, n: nat, id: Id)
    requires BookInv(b) && id < n <= |b.approvals| && b.approvals[id].state == Awaiting
             && b.approvals[id].expiresAt <= now
    ensures var after := ExpireStale(b, now, n);
            && after.approvals[id].state == Lapsed
            && b.approvals[id].execution in after.executions
            && after.executions[b.approvals[id].execution].state == ExecutionExpired
  {
    hide BookInv;
    var before := ExpireStale(b, now, n - 1);
    ExpireKeeps(b, now, n - 1);
    if id < n - 1 {
      ExpireEndsBoth(b, now, n - 1, id);
      ExecutionsDiffer(before, id, n - 1);
    } else {
      AwaitingIsPending(before, id);
    }
  }

  /** A sweep leaves alone what has not run out. */
  lemma {:induction false} ExpireSparesOthers(b: Book, now: int, n: nat, id: Id)
    requires n <= |b.approvals| && id < |b.approvals| && b.approvals[id].expiresAt > now
    ensures ExpireStale(b, now, n).approvals[id] == b.approvals[id]
  {
    if n > 0 {
      ExpireSparesOthers(b, now, n - 1, id);
    }
  }

  /** An approval found to have run out when it is approved leaves its execution pending. */
  lemma LateApprovalLeavesPending(b: Book, id: Id, key: Key, position: Option<Position>, m: Moment, e: Entry)
    requires BookInv(b) && id < |b.approvals| && b.approvals[id].state == Awaiting && b.approvals[id].expiresAt <= m.now
    ensures var after := Approve(b, id, key, position, m, e);
            && b.approvals[id].execution in after.executions
            && after.executions[b.approvals[id].execution].state == ApprovalPending
  {
    hide BookInv, ApprovalBlocked, ApprovalRequest;
    AwaitingIsPending(b, id);
  }

  lemma {:induction false} ExpireLeavesEnded(b: Book, now: int, n: nat, id: Id)
    requires BookInv(b) && n <= |b.approvals| && id < |b.approvals| && b.approvals[id].state != Awaiting
    requires b.approvals[id].execution in b.executions
    ensures var after := ExpireStale(b, now, n);
            && b.approvals[id].execution in after.executions
            && after.executions[b.approvals[id].execution] == b.executions[b.approvals[id].execution]
  {
    hide BookInv;
    if n > 0 {
      ExpireLeavesEnded(b, now, n - 1, id);
      ExpireKeeps(b, now, n - 1);
      if n - 1 != id {
        ExecutionsDiffer(b, id, n - 1);
      }
    }
  }

  lemma ExecutionsDiffer(b: Book, a: Id, c: Id)
    requires BookInv(b) && a < |b.approvals| && c < |b.approvals| && a != c
    ensures b.approvals[a].execution != b.approvals[c].execution
  {
    assert Linked(b, a) && Linked(b, c);
  }
}
