/**
 * The fixed stop: one trigger row per position version and risk policy, moving
 * between recorded, pending and fulfilled as its sale is blocked or goes
 * through, and a risk event that stays active while the exit is pending.
 */
module StopTriggers {
  import opened Common
  import opened BrokerOrders
  import opened Positions
  import opened OrderCreation
  import opened Guards

  datatype TriggerState = Pending | ShadowRecorded | ExitPending | Superseded | Fulfilled

  datatype Trigger = Trigger(
    symbol: Symbol,
    version: nat,
    policy: Option<Id>,
    state: TriggerState,
    result: Option<Code>,
    event: Option<Id>)

  datatype Resolution = BySupersession | ByPositionClosed | ByRecovery | ByOrder

  datatype RiskEvent = ActiveEvent(rule: Code) | ResolvedEvent(rule: Code, resolution: Resolution)

  /** The tables a stop evaluation writes. */
  datatype Board = Board(orders: seq<OrderRow>, triggers: seq<Trigger>, events: seq<RiskEvent>)

  datatype StopSetting = StopSetting(policy: Option<Id>, lossPct: real, sellsAutomatically: bool)

  predicate Live(t: Trigger) {
    t.state.Pending? || t.state.ShadowRecorded? || t.state.ExitPending?
  }

  // ---------------------------------------------------------------- prices

  function RoundHalfUp(x: real): real {
    if x >= 0.0 then (x * 10000.0 + 0.5).Floor as real / 10000.0 else -((-x * 10000.0 + 0.5).Floor as real / 10000.0)
  }

  /** What the shares cost that a stop protects. */
  function CostOf(p: Position): real {
    if p.managed > 0 then p.managedAverage else p.average
  }

  function ComputeStopPrice(average: real, lossPct: real): real {
    RoundHalfUp(average * (1.0 + lossPct / 100.0))
  }

  function StopPrice(p: Position, lossPct: real): real {
    ComputeStopPrice(CostOf(p), lossPct)
  }

  predicate ShouldTrigger(bid: Option<real>, stopPrice: real) {
    bid.Some? && 0.0 < bid.value <= stopPrice
  }

  // ---------------------------------------------------------------- moves of one trigger

  function Resolve(events: seq<RiskEvent>, event: Option<Id>, resolution: Resolution): seq<RiskEvent> {
    if event.Some? && event.value < |events| && events[event.value].ActiveEvent?
    then events[event.value := ResolvedEvent(events[event.value].rule, resolution)]
    else events
  }

  function Supersede(b: Board, t: Id, resolution: Resolution): Board
    requires t < |b.triggers|
  {
    b.(triggers := b.triggers[t := b.triggers[t].(state := Superseded)],
       events := Resolve(b.events, b.triggers[t].event, resolution))
  }

  /** The sale is blocked: the exit stays pending, and a trigger without a risk event gets one. */
  function Block(b: Board, t: Id, rule: Code): Board
    requires t < |b.triggers|
  {
    var row := b.triggers[t].(state := ExitPending, result := Some(rule));
    if row.event.Some? then b.(triggers := b.triggers[t := row])
    else b.(triggers := b.triggers[t := row.(event := Some(|b.events|))], events := b.events + [ActiveEvent(rule)])
  }

  function StopRequest(t: Id, symbol: Symbol, p: Position, bid: real, stopPrice: real): Request {
    Request(StopKey(t), ByTrigger(t, symbol, bid, Max(0, p.managed), p.version, stopPrice), symbol, Krx, Sell, Limit,
            Some(bid),
            Max(0, p.managed))
  }

  /** Creates the stop's order; whatever prevents it leaves the exit pending. */
  function Emit(b: Board, t: Id, p: Position, quote: Quote, stopPrice: real): Board
    requires t < |b.triggers|
  {
    var row := b.triggers[t];
    if quote.bid.None? || quote.bid.value <= 0.0 then
      b.(triggers := b.triggers[t := row.(state := ExitPending, result := Some(NoExecutableQuote))])
    else
      var request := StopRequest(t, row.symbol, p, quote.bid.value, stopPrice);
      match Create(b.orders, request)
      case Refused(code) => b.(triggers := b.triggers[t := row.(state := ExitPending, result := Some(code))])
      case _ =>
        Board(After(b.orders, request),
              b.triggers[t := row.(state := Fulfilled, result := Some(OrderCreated))],
              Resolve(b.events, row.event, ByOrder))
  }

  /** One evaluation of a trigger against its position. */
  function Judge(b: Board, t: Id, p: Position, s: StopSetting, m: Moment): Board
    requires t < |b.triggers|
  {
    var row := b.triggers[t];
    var blocked := StopBlocked(b.orders, row.symbol, p, row.version, m);
    if blocked.Some? then Block(b, t, blocked.value)
    else
      var recovered := b.(events := Resolve(b.events, row.event, ByRecovery));
      if s.sellsAutomatically && m.quote.Some? then
        Emit(recovered, t, p, m.quote.value, StopPrice(p, s.lossPct))
      else
        recovered.(triggers := b.triggers[t := row.(state := ShadowRecorded, result := None)])
  }

  function ReEvaluate(b: Board, t: Id, p: Position, s: StopSetting, m: Moment): Board
    requires t < |b.triggers|
  {
    if p.state != Held || p.quantity <= 0 then Supersede(b, t, ByPositionClosed) else Judge(b, t, p, s, m)
  }

  // ---------------------------------------------------------------- one position

  predicate Concerns(t: Trigger, symbol: Symbol, policy: Option<Id>) {
    t.symbol == symbol && t.policy == policy
  }

  /** A live trigger of exactly this position version and policy. */
  function FindLive(triggers: seq<Trigger>, symbol: Symbol, version: nat, policy: Option<Id>): (found: Option<Id>)
    ensures found.Some? ==>
              && found.value < |triggers|
              && Live(triggers[found.value]) && Concerns(triggers[found.value], symbol, policy)
              && triggers[found.value].version == version
    ensures found.None? ==>
              forall i :: 0 <= i < |triggers| && Live(triggers[i]) && Concerns(triggers[i], symbol, policy) ==>
                triggers[i].version != version
  {
    if triggers == [] then None
    else
      var last := |triggers| - 1;
      if Live(triggers[last]) && Concerns(triggers[last], symbol, policy) && triggers[last].version == version
      then Some(last)
      else FindLive(triggers[..last], symbol, version, policy)
  }

  /** Supersedes every live trigger of the position and policy among the first n. */
  function SupersedeStale(b: Board, symbol: Symbol, policy: Option<Id>, n: nat): (after: Board)
    requires n <= |b.triggers|
    ensures |after.triggers| == |b.triggers|
  {
    if n == 0 then b
    else
      var before := SupersedeStale(b, symbol, policy, n - 1);
      if Live(b.triggers[n - 1]) && Concerns(b.triggers[n - 1], symbol, policy)
      then Supersede(before, n - 1, BySupersession)
      else before
  }

  /** The table admits one trigger per position version and policy version; rows without a policy version are exempt. */
  predicate Taken(triggers: seq<Trigger>, symbol: Symbol, version: nat, policy: Option<Id>) {
    policy.Some?
    && exists i :: 0 <= i < |triggers| && Concerns(triggers[i], symbol, policy) && triggers[i].version == version
  }

  function Raise(b: Board, symbol: Symbol, version: nat, policy: Option<Id>): Board {
    b.(triggers := b.triggers + [Trigger(symbol, version, policy, Pending, None, None)])
  }

  /** One position's evaluation. None when the database refuses the new trigger row. */
  function EvaluatePosition(b: Board, symbol: Symbol, p: Position, s: StopSetting, m: Moment): Option<Board> {
    var existing := FindLive(b.triggers, symbol, p.version, s.policy);
    if existing.Some? then
      Some(ReEvaluate(b, existing.value, p, s, m))
    else
      var cleared := SupersedeStale(b, symbol, s.policy, |b.triggers|);
      if !ShouldTrigger(if m.quote.Some? then m.quote.value.bid else None, StopPrice(p, s.lossPct)) then Some(cleared)
      else if Taken(b.triggers, symbol, p.version, s.policy) then None
      else Some(Judge(Raise(cleared, symbol, p.version, s.policy), |b.triggers|, p, s, m))
  }

  /** A pending exit looked at again after the broker recovered; the position may be gone by then. */
  function RecoverExit(b: Board, t: Id, position: Option<Position>, s: StopSetting, m: Moment): Board
    requires t < |b.triggers|
  {
    if position.None? then Supersede(b, t, ByPositionClosed) else ReEvaluate(b, t, position.value, s, m)
  }

  // ---------------------------------------------------------------- what every evaluation keeps

  predicate OrderedBy(row: OrderRow, t: Id) {
    row.payload.ByTrigger? && row.payload.trigger == t
  }

  /** Stop orders sit under their trigger's own key, and exactly the fulfilled triggers have one. */
  ghost predicate StopOrdersMatch(b: Board) {
    && DistinctKeys(b.orders)
    && (forall i :: 0 <= i < |b.orders| && b.orders[i].payload.ByTrigger? ==>
          && b.orders[i].key == StopKey(b.orders[i].payload.trigger)
          && b.orders[i].payload.trigger < |b.triggers|
          && b.triggers[b.orders[i].payload.trigger].state == Fulfilled)
    && (forall t :: 0 <= t < |b.triggers| && b.triggers[t].state == Fulfilled ==>
          exists i :: 0 <= i < |b.orders| && OrderedBy(b.orders[i], t))
  }

  /** No two live triggers watch the same position under the same policy. */
  ghost predicate OneLive(triggers: seq<Trigger>) {
    forall i, j :: 0 <= i < j < |triggers| && Live(triggers[i]) && Live(triggers[j]) ==>
      !Concerns(triggers[j], triggers[i].symbol, triggers[i].policy)
  }

  /** A position version has one row per policy version. */
  ghost predicate OneRowEach(triggers: seq<Trigger>) {
    forall i, j :: 0 <= i < j < |triggers| && triggers[i].policy.Some? && triggers[i].version == triggers[j].version ==>
      !Concerns(triggers[j], triggers[i].symbol, triggers[i].policy)
  }

  ghost predicate NonePending(triggers: seq<Trigger>) {
    forall i :: 0 <= i < |triggers| ==> triggers[i].state != Pending
  }

  /** Every active risk event belongs to a trigger whose exit is pending. */
  ghost predicate EventsOwned(b: Board) {
    && (forall t :: 0 <= t < |b.triggers| && b.triggers[t].event.Some? ==> b.triggers[t].event.value < |b.events|)
    && (forall e :: 0 <= e < |b.events| && b.events[e].ActiveEvent? ==>
          exists t :: 0 <= t < |b.triggers| && b.triggers[t].event == Some(e) && b.triggers[t].state == ExitPending)
  }

  ghost predicate BoardInv(b: Board) {
    StopOrdersMatch(b) && OneLive(b.triggers) && OneRowEach(b.triggers) && NonePending(b.triggers) && EventsOwned(b)
  }

  /** A trigger stays what it is about; once superseded or fulfilled it never changes again. */
  ghost predicate TriggersAdvance(before: seq<Trigger>, after: seq<Trigger>) {
    && |before| <= |after|
    && forall t :: 0 <= t < |before| ==>
         && after[t].symbol == before[t].symbol && after[t].version == before[t].version
            && after[t].policy == before[t].policy
         && (!Live(before[t]) ==> after[t] == before[t])
  }

  /** Only trigger t moved, and not back to pending. */
  ghost predicate OnlyMoves(before: seq<Trigger>, after: seq<Trigger>, t: Id) {
    && |after| == |before| && t < |before|
    && (forall i :: 0 <= i < |before| && i != t ==> after[i] == before[i])
    && after[t].symbol == before[t].symbol && after[t].version == before[t].version
       && after[t].policy == before[t].policy
    && after[t].state != Pending
  }

  lemma JudgeMoves(b: Board, t: Id, p: Position, s: StopSetting, m: Moment)
    requires t < |b.triggers|
    ensures OnlyMoves(b.triggers, Judge(b, t, p, s, m).triggers, t)
    ensures Judge(b, t, p, s, m).triggers[t].state != Superseded
  {
    hide StopBlocked, Create, After, StopPrice;
  }

  lemma SupersedeMoves(b: Board, t: Id, resolution: Resolution)
    requires t < |b.triggers|
    ensures OnlyMoves(b.triggers, Supersede(b, t, resolution).triggers, t)
  {
  }

  lemma MoveKeepsOneLive(before: seq<Trigger>, after: seq<Trigger>, t: Id)
    requires OneLive(before) && OneRowEach(before) && OnlyMoves(before, after, t) && Live(before[t])
    requires forall i :: 0 <= i < |before| && i != t ==> before[i].state != Pending
    ensures OneLive(after) && OneRowEach(after) && NonePending(after) && TriggersAdvance(before, after)
  {
  }

  lemma JudgeKeepsEvents(b: Board, t: Id, p: Position, s: StopSetting, m: Moment)
    requires t < |b.triggers| && EventsOwned(b)
    ensures EventsOwned(Judge(b, t, p, s, m))
  {
    hide StopBlocked, Create, After, StopPrice;
    var blocked := StopBlocked(b.orders, b.triggers[t].symbol, p, b.triggers[t].version, m);
    var after := Judge(b, t, p, s, m);
    if blocked.Some? {
      BlockKeepsEvents(b, t, blocked.value);
    } else {
      ResolvingKeepsEvents(b, after, t, ByRecovery);
    }
  }

  lemma BlockKeepsEvents(b: Board, t: Id, rule: Code)
    requires t < |b.triggers| && EventsOwned(b)
    ensures EventsOwned(Block(b, t, rule))
  {
    var after := Block(b, t, rule);
    forall e | 0 <= e < |after.events| && after.events[e].ActiveEvent?
      ensures exists u ::
                && 0 <= u < |after.triggers|
                && after.triggers[u].event == Some(e) && after.triggers[u].state == ExitPending
    {
      if e == |b.events| {
        assert after.triggers[t].event == Some(e);
      } else {
        var u :| 0 <= u < |b.triggers| && b.triggers[u].event == Some(e) && b.triggers[u].state == ExitPending;
        assert after.triggers[u].event == Some(e) && after.triggers[u].state == ExitPending;
      }
    }
  }

  /** A trigger whose event is resolved may move anywhere. */
  lemma ResolvingKeepsEvents(b: Board, after: Board, t: Id, resolution: Resolution)
    requires t < |b.triggers| && EventsOwned(b)
    requires |after.triggers| == |b.triggers| && after.triggers[t].event == b.triggers[t].event
    requires forall u :: 0 <= u < |b.triggers| && u != t ==> after.triggers[u] == b.triggers[u]
    requires || after.events == Resolve(b.events, b.triggers[t].event, resolution)
             || after.events == Resolve(Resolve(b.events, b.triggers[t].event, resolution), b.triggers[t].event,
                                        ByOrder)
    ensures EventsOwned(after)
  {
    forall e | 0 <= e < |after.events| && after.events[e].ActiveEvent?
      ensures exists u ::
                && 0 <= u < |after.triggers|
                && after.triggers[u].event == Some(e) && after.triggers[u].state == ExitPending
    {
      var u :| 0 <= u < |b.triggers| && b.triggers[u].event == Some(e) && b.triggers[u].state == ExitPending;
      assert after.triggers[u].event == Some(e) && after.triggers[u].state == ExitPending;
    }
  }

  /** A live trigger's order is either created by this evaluation or not at all: no earlier order can be its own. */
  lemma JudgeKeepsOrders(b: Board, t: Id, p: Position, s: StopSetting, m: Moment)
    requires t < |b.triggers| && Live(b.triggers[t]) && StopOrdersMatch(b)
    ensures var after := Judge(b, t, p, s, m);
            && StopOrdersMatch(after)
            && Grows(b.orders, after.orders)
            && (after.orders == b.orders
                || (|after.orders| == |b.orders| + 1 && OrderedBy(after.orders[|b.orders|], t)
                    && after.orders[..|b.orders|] == b.orders))
  {
    hide StopBlocked, StopPrice, Resolve;
    var after := Judge(b, t, p, s, m);
    if after.orders == b.orders {
      assert after.triggers[t].state != Fulfilled;
    } else {
      var n := |b.orders|;
      assert OrderedBy(after.orders[n], t);
      forall u | 0 <= u < |after.triggers| && after.triggers[u].state == Fulfilled
        ensures exists i :: 0 <= i < |after.orders| && OrderedBy(after.orders[i], u)
      {
        if u != t {
          var i :| 0 <= i < n && OrderedBy(b.orders[i], u);
          assert OrderedBy(after.orders[i], u);
        }
      }
    }
  }

  lemma JudgeKeeps(b: Board, t: Id, p: Position, s: StopSetting, m: Moment)
    requires t < |b.triggers| && Live(b.triggers[t])
    requires StopOrdersMatch(b) && OneLive(b.triggers) && OneRowEach(b.triggers) && EventsOwned(b)
    requires forall i :: 0 <= i < |b.triggers| && i != t ==> b.triggers[i].state != Pending
    ensures BoardInv(Judge(b, t, p, s, m)) && TriggersAdvance(b.triggers, Judge(b, t, p, s, m).triggers)
  {
    hide Judge, StopOrdersMatch, EventsOwned, OneLive, OnlyMoves;
    JudgeMoves(b, t, p, s, m);
    MoveKeepsOneLive(b.triggers, Judge(b, t, p, s, m).triggers, t);
    JudgeKeepsEvents(b, t, p, s, m);
    JudgeKeepsOrders(b, t, p, s, m);
  }

  lemma SupersedeKeepsOrders(b: Board, t: Id, resolution: Resolution)
    requires t < |b.triggers| && Live(b.triggers[t]) && StopOrdersMatch(b)
    ensures StopOrdersMatch(Supersede(b, t, resolution))
  {
    var after := Supersede(b, t, resolution);
    forall u | 0 <= u < |after.triggers| && after.triggers[u].state == Fulfilled
      ensures exists i :: 0 <= i < |after.orders| && OrderedBy(after.orders[i], u)
    {
      assert b.triggers[u].state == Fulfilled;
    }
  }

  lemma SupersedeKeeps(b: Board, t: Id, resolution: Resolution)
    requires t < |b.triggers| && Live(b.triggers[t]) && BoardInv(b)
    ensures BoardInv(Supersede(b, t, resolution)) && TriggersAdvance(b.triggers, Supersede(b, t, resolution).triggers)
  {
    hide StopOrdersMatch, EventsOwned, OneLive, OnlyMoves;
    SupersedeMoves(b, t, resolution);
    MoveKeepsOneLive(b.triggers, Supersede(b, t, resolution).triggers, t);
    SupersedeKeepsOrders(b, t, resolution);
    ResolvingKeepsEvents(b, Supersede(b, t, resolution), t, resolution);
  }

  lemma AdvanceTransitive(a: seq<Trigger>, b: seq<Trigger>, c: seq<Trigger>)
    requires TriggersAdvance(a, b) && TriggersAdvance(b, c)
    ensures TriggersAdvance(a, c)
  {
  }

  lemma {:induction false} SupersedeStaleKeeps(b: Board, symbol: Symbol, policy: Option<Id>, n: nat)
    requires n <= |b.triggers| && BoardInv(b)
    ensures var after := SupersedeStale(b, symbol, policy, n);
            && BoardInv(after) && TriggersAdvance(b.triggers, after.triggers) && after.orders == b.orders
            && (forall i :: 0 <= i < n ==> !(Live(after.triggers[i]) && Concerns(after.triggers[i], symbol, policy)))
            && (forall i :: n <= i < |b.triggers| ==> after.triggers[i] == b.triggers[i])
  {
    hide StopOrdersMatch, EventsOwned, OneLive, NonePending;
    if n > 0 {
      SupersedeStaleKeeps(b, symbol, policy, n - 1);
      var before := SupersedeStale(b, symbol, policy, n - 1);
      if Live(b.triggers[n - 1]) && Concerns(b.triggers[n - 1], symbol, policy) {
        SupersedeKeeps(before, n - 1, BySupersession);
        AdvanceTransitive(b.triggers, before.triggers, SupersedeStale(b, symbol, policy, n).triggers);
      }
    }
  }

  /** Raising a trigger where none is live; it still has to be judged. */
  lemma RaiseReady(b: Board, symbol: Symbol, version: nat, policy: Option<Id>)
    requires BoardInv(b)
    requires forall i :: 0 <= i < |b.triggers| ==> !(Live(b.triggers[i]) && Concerns(b.triggers[i], symbol, policy))
    requires !Taken(b.triggers, symbol, version, policy)
    ensures var raised := Raise(b, symbol, version, policy);
            StopOrdersMatch(raised) && OneLive(raised.triggers) && OneRowEach(raised.triggers) && EventsOwned(raised)
  {
    var raised := Raise(b, symbol, version, policy);
    forall e | 0 <= e < |raised.events| && raised.events[e].ActiveEvent?
      ensures exists u ::
                && 0 <= u < |raised.triggers|
                && raised.triggers[u].event == Some(e) && raised.triggers[u].state == ExitPending
    {
      var u :| 0 <= u < |b.triggers| && b.triggers[u].event == Some(e) && b.triggers[u].state == ExitPending;
      assert raised.triggers[u].event == Some(e);
    }
    forall u | 0 <= u < |raised.triggers| && raised.triggers[u].state == Fulfilled
      ensures exists i :: 0 <= i < |raised.orders| && OrderedBy(raised.orders[i], u)
    {
      assert b.triggers[u].state == Fulfilled;
    }
  }

  lemma NotTakenLater(before: seq<Trigger>, after: seq<Trigger>, symbol: Symbol, version: nat, policy: Option<Id>)
    requires |after| == |before| && TriggersAdvance(before, after) && !Taken(before, symbol, version, policy)
    ensures !Taken(after, symbol, version, policy)
  {
  }

  /** Every evaluation of a position keeps the board in order and ended triggers as they are. */
  lemma EvaluateKeeps(b: Board, symbol: Symbol, p: Position, s: StopSetting, m: Moment)
    requires BoardInv(b) && EvaluatePosition(b, symbol, p, s, m).Some?
    ensures var after := EvaluatePosition(b, symbol, p, s, m).value;
            BoardInv(after) && TriggersAdvance(b.triggers, after.triggers)
  {
    hide StopOrdersMatch, EventsOwned, OneLive, Judge, Supersede, ShouldTrigger, StopPrice, SupersedeStale, Taken;
    var existing := FindLive(b.triggers, symbol, p.version, s.policy);
    if existing.Some? {
      ReEvaluateKeeps(b, existing.value, p, s, m);
    } else if Taken(b.triggers, symbol, p.version, s.policy)
           || !ShouldTrigger(if m.quote.Some? then m.quote.value.bid else None, StopPrice(p, s.lossPct)) {
      SupersedeStaleKeeps(b, symbol, s.policy, |b.triggers|);
    } else {
      SupersedeStaleKeeps(b, symbol, s.policy, |b.triggers|);
      var cleared := SupersedeStale(b, symbol, s.policy, |b.triggers|);
      NotTakenLater(b.triggers, cleared.triggers, symbol, p.version, s.policy);
      RaiseReady(cleared, symbol, p.version, s.policy);
      var raised := Raise(cleared, symbol, p.version, s.policy);
      JudgeKeeps(raised, |b.triggers|, p, s, m);
      AdvanceTransitive(cleared.triggers, raised.triggers, Judge(raised, |b.triggers|, p, s, m).triggers);
      AdvanceTransitive(b.triggers, cleared.triggers, Judge(raised, |b.triggers|, p, s, m).triggers);
    }
  }

  lemma ReEvaluateKeeps(b: Board, t: Id, p: Position, s: StopSetting, m: Moment)
    requires t < |b.triggers| && Live(b.triggers[t]) && BoardInv(b)
    ensures BoardInv(ReEvaluate(b, t, p, s, m)) && TriggersAdvance(b.triggers, ReEvaluate(b, t, p, s, m).triggers)
  {
    hide StopOrdersMatch, EventsOwned, OneLive, Judge, Supersede;
    if p.state != Held || p.quantity <= 0 {
      SupersedeKeeps(b, t, ByPositionClosed);
    } else {
      JudgeKeeps(b, t, p, s, m);
    }
  }

  lemma RecoverKeeps(b: Board, t: Id, position: Option<Position>, s: StopSetting, m: Moment)
    requires t < |b.triggers| && b.triggers[t].state == ExitPending && BoardInv(b)
    ensures BoardInv(RecoverExit(b, t, position, s, m))
            && TriggersAdvance(b.triggers, RecoverExit(b, t, position, s, m).triggers)
  {
    hide StopOrdersMatch, EventsOwned, OneLive, ReEvaluate, Supersede;
    if position.None? {
      SupersedeKeeps(b, t, ByPositionClosed);
    } else {
      ReEvaluateKeeps(b, t, position.value, s, m);
    }
  }

  /** Whatever else happens to the order table, as long as nobody else writes stop orders. */
  lemma OtherOrdersKeep(b: Board, orders: seq<OrderRow>)
    requires BoardInv(b) && Grows(b.orders, orders) && DistinctKeys(orders)
    requires forall i :: |b.orders| <= i < |orders| ==> !orders[i].payload.ByTrigger?
    ensures BoardInv(b.(orders := orders))
  {
    forall t | 0 <= t < |b.triggers| && b.triggers[t].state == Fulfilled
      ensures exists i :: 0 <= i < |orders| && OrderedBy(orders[i], t)
    {
      var i :| 0 <= i < |b.orders| && OrderedBy(b.orders[i], t);
      assert OrderedBy(orders[i], t);
    }
  }

  /**
   * After a trigger with a policy version ended, the same position version cannot
   * be evaluated again while the bid is at the stop: the database refuses the row.
   * This needs a policy row under the account itself; without one see below.
   */
  lemma EndedTriggerRefusesItsVersion(b: Board, t: Id, p: Position, s: StopSetting, m: Moment)
    requires BoardInv(b) && t < |b.triggers| && !Live(b.triggers[t])
    requires b.triggers[t].version == p.version && b.triggers[t].policy == s.policy && s.policy.Some?
    ensures EvaluatePosition(b, b.triggers[t].symbol, p, s, m).None?
            <==> ShouldTrigger(if m.quote.Some? then m.quote.value.bid else None, StopPrice(p, s.lossPct))
  {
    hide ShouldTrigger, StopPrice, Judge, ReEvaluate, SupersedeStale, StopOrdersMatch, EventsOwned;
    assert FindLive(b.triggers, b.triggers[t].symbol, p.version, s.policy).None?;
  }

  /** Without a live trigger, the stop fires exactly when the bid is positive and at or below the stop price. */
  lemma FiresExactlyAtStop(b: Board, symbol: Symbol, p: Position, s: StopSetting, m: Moment)
    requires FindLive(b.triggers, symbol, p.version, s.policy).None? && !Taken(b.triggers, symbol, p.version, s.policy)
    ensures var after := EvaluatePosition(b, symbol, p, s, m);
            && after.Some?
            && |after.value.triggers| == |b.triggers| + if m.quote.Some? && m.quote.value.bid.Some?
                                                          && 0.0 < m.quote.value.bid.value <= StopPrice(p, s.lossPct)
                                                             then 1 else 0
  {
    hide StopPrice, Judge, SupersedeStale;
    JudgeMoves(Raise(SupersedeStale(b, symbol, s.policy, |b.triggers|), symbol, p.version, s.policy), |b.triggers|, p,
               s, m);
  }

  lemma RecoverMoves(b: Board, t: Id, position: Option<Position>, s: StopSetting, m: Moment)
    requires t < |b.triggers|
    ensures OnlyMoves(b.triggers, RecoverExit(b, t, position, s, m).triggers, t)
  {
    hide Judge, Supersede, OnlyMoves;
    SupersedeMoves(b, t, ByPositionClosed);
    if position.Some? {
      JudgeMoves(b, t, position.value, s, m);
    }
  }

  // ---------------------------------------------------------------- what a tick fails on

  /**
   * The position's current version has an ended trigger under the policy version and
   * no live one, and the bid is at its stop.
   */
  ghost predicate Refuses(triggers: seq<Trigger>, symbol: Symbol, p: Position, s: StopSetting, m: Moment) {
    && s.policy.Some?
    && (exists t :: 0 <= t < |triggers| && Concerns(triggers[t], symbol, s.policy) && triggers[t].version == p.version
                    && !Live(triggers[t]))
    && (forall t ::
          0 <= t < |triggers| && Concerns(triggers[t], symbol, s.policy) && triggers[t].version == p.version ==>
            !Live(triggers[t]))
    && ShouldTrigger(if m.quote.Some? then m.quote.value.bid else None, StopPrice(p, s.lossPct))
  }

  lemma RefusedExactly(b: Board, symbol: Symbol, p: Position, s: StopSetting, m: Moment)
    ensures EvaluatePosition(b, symbol, p, s, m).None? <==> Refuses(b.triggers, symbol, p, s, m)
  {
    hide Judge, ReEvaluate, SupersedeStale, ShouldTrigger, StopPrice;
  }

  /** Only triggers of one symbol were written or added. */
  ghost predicate OnlySymbol(before: seq<Trigger>, after: seq<Trigger>, symbol: Symbol) {
    && |before| <= |after|
    && (forall t :: 0 <= t < |before| ==>
        after[t] == before[t] || (before[t].symbol == symbol && after[t].symbol == symbol))
    && (forall t :: |before| <= t < |after| ==> after[t].symbol == symbol)
  }

  lemma {:induction false} SupersedeStaleOnlySymbol(b: Board, symbol: Symbol, policy: Option<Id>, n: nat)
    requires n <= |b.triggers|
    ensures var after := SupersedeStale(b, symbol, policy, n).triggers;
            OnlySymbol(b.triggers, after, symbol) && forall t :: n <= t < |b.triggers| ==> after[t] == b.triggers[t]
  {
    if n > 0 {
      SupersedeStaleOnlySymbol(b, symbol, policy, n - 1);
    }
  }

  lemma EvaluateOnlySymbol(b: Board, symbol: Symbol, p: Position, s: StopSetting, m: Moment)
    requires EvaluatePosition(b, symbol, p, s, m).Some?
    ensures OnlySymbol(b.triggers, EvaluatePosition(b, symbol, p, s, m).value.triggers, symbol)
  {
    hide Judge, Supersede, ShouldTrigger, StopPrice, SupersedeStale, Taken;
    var existing := FindLive(b.triggers, symbol, p.version, s.policy);
    if existing.Some? {
      JudgeMoves(b, existing.value, p, s, m);
      SupersedeMoves(b, existing.value, ByPositionClosed);
    } else {
      SupersedeStaleOnlySymbol(b, symbol, s.policy, |b.triggers|);
      var cleared := SupersedeStale(b, symbol, s.policy, |b.triggers|);
      JudgeMoves(Raise(cleared, symbol, p.version, s.policy), |b.triggers|, p, s, m);
    }
  }

  /** Evaluating one symbol does not decide whether another is refused. */
  lemma OthersRefusedAlike(before: seq<Trigger>, after: seq<Trigger>, symbol: Symbol, other: Symbol, p: Position,
                           s: StopSetting, m: Moment)
    requires OnlySymbol(before, after, symbol) && other != symbol
    ensures Refuses(before, other, p, s, m) == Refuses(after, other, p, s, m)
  {
    hide ShouldTrigger, StopPrice;
    if t :|
         && 0 <= t < |after| && Concerns(after[t], other, s.policy)
         && after[t].version == p.version && !Live(after[t]) {
      assert Concerns(before[t], other, s.policy) && before[t] == after[t];
    }
    if t :|
         && 0 <= t < |before| && Concerns(before[t], other, s.policy)
         && before[t].version == p.version && !Live(before[t]) {
      assert Concerns(after[t], other, s.policy) && before[t] == after[t];
    }
    forall t | 0 <= t < |after| && Concerns(after[t], other, s.policy)
      ensures t < |before| && before[t] == after[t]
    {
    }
    forall t | 0 <= t < |before| && Concerns(before[t], other, s.policy)
      ensures before[t] == after[t]
    {
    }
  }

  // ---------------------------------------------------------------- evaluating without a policy row

  /** Nothing keeps a stop from selling: spelled out, with nothing reserved because nothing is under way. */
  predicate SaleGoes(orders: seq<OrderRow>, symbol: Symbol, p: Position, m: Moment) {
    && p.state == Held && p.quantity > 0 && 0 < p.managed <= p.available
    && m.gate == Some(Ready) && !HasActive(orders, symbol) && Fresh(m) && m.sessionTradable && m.isMock
  }

  lemma SaleGoesExactly(orders: seq<OrderRow>, symbol: Symbol, p: Position, m: Moment)
    ensures StopBlocked(orders, symbol, p, p.version, m).None? <==> SaleGoes(orders, symbol, p, m)
  {
    hide Reserved;
    if !HasActive(orders, symbol) {
      NothingReserved(orders, symbol);
    }
  }

  function BidOf(m: Moment): Option<real> {
    if m.quote.Some? then m.quote.value.bid else None
  }

  /**
   * A sale goes, it may be ordered automatically at a usable bid, and the trigger's
   * key is free. Where the stop is does not matter.
   */
  predicate Sells(orders: seq<OrderRow>, t: Id, symbol: Symbol, p: Position, s: StopSetting, m: Moment) {
    && s.sellsAutomatically && SaleGoes(orders, symbol, p, m)
    && BidOf(m).Some? && 0.0 < BidOf(m).value
    && Find(orders, StopKey(t)).None?
  }

  /** Trigger t has sold: its order is new and the last one, and it is fulfilled. */
  predicate SoldBy(b: Board, after: Board, t: Id) {
    && |after.orders| == |b.orders| + 1 && after.orders[..|b.orders|] == b.orders
    && OrderedBy(after.orders[|b.orders|], t) && after.orders[|b.orders|].key == StopKey(t)
    && t < |after.triggers| && after.triggers[t].state == Fulfilled
  }

  lemma JudgeSellsExactly(b: Board, t: Id, p: Position, s: StopSetting, m: Moment)
    requires t < |b.triggers|
    ensures var after := Judge(b, t, p, s, m);
            if b.triggers[t].version == p.version && Sells(b.orders, t, b.triggers[t].symbol, p, s, m)
            then SoldBy(b, after, t) else after.orders == b.orders
  {
    hide StopBlocked, Resolve, Find, StopPrice;
    if b.triggers[t].version == p.version {
      SaleGoesExactly(b.orders, b.triggers[t].symbol, p, m);
    } else {
      OtherVersionBlocked(b.orders, b.triggers[t].symbol, p, b.triggers[t].version, m);
    }
  }

  lemma OtherVersionBlocked(orders: seq<OrderRow>, symbol: Symbol, p: Position, version: nat, m: Moment)
    requires p.version != version
    ensures StopBlocked(orders, symbol, p, version, m).Some?
  {
  }

  /**
   * A trigger looked at again sells whatever the price, if it watches this version and
   * nothing keeps it from selling.
   */
  lemma ReEvaluationSellsExactly(b: Board, t: Id, p: Position, s: StopSetting, m: Moment)
    requires t < |b.triggers|
    ensures var after := ReEvaluate(b, t, p, s, m);
            if b.triggers[t].version == p.version && Sells(b.orders, t, b.triggers[t].symbol, p, s, m)
            then SoldBy(b, after, t) else after.orders == b.orders
  {
    hide Judge, Find, HasActive;
    JudgeSellsExactly(b, t, p, s, m);
  }

  predicate Fires(p: Position, s: StopSetting, m: Moment) {
    ShouldTrigger(BidOf(m), StopPrice(p, s.lossPct))
  }

  /** The trigger an evaluation looks at: the live one of this version, or the one it would add. */
  function Judged(b: Board, symbol: Symbol, p: Position, s: StopSetting): Id {
    var live := FindLive(b.triggers, symbol, p.version, s.policy);
    if live.Some? then live.value else |b.triggers|
  }

  /**
   * Without a policy row the database never refuses. A new row appears exactly
   * where no live trigger watches the version and the bid is at the stop. An order
   * appears exactly if a live trigger watches the version or the bid is at the
   * stop, and nothing keeps that trigger from selling: a live one sells whatever
   * the price has become.
   */
  lemma EvaluationSellsExactly(b: Board, symbol: Symbol, p: Position, s: StopSetting, m: Moment)
    requires s.policy.None?
    ensures var after := EvaluatePosition(b, symbol, p, s, m);
            var live := FindLive(b.triggers, symbol, p.version, s.policy).Some?;
            var t := Judged(b, symbol, p, s);
            && after.Some?
            && |after.value.triggers| == |b.triggers| + (if !live && Fires(p, s, m) then 1 else 0)
            && if (live || Fires(p, s, m)) && Sells(b.orders, t, symbol, p, s, m) then SoldBy(b, after.value, t)
               else after.value.orders == b.orders
  {
    hide ShouldTrigger, StopPrice, Judge, SupersedeStale, SaleGoes, Find;
    var live := FindLive(b.triggers, symbol, p.version, s.policy);
    if live.Some? {
      ReEvaluationSellsExactly(b, live.value, p, s, m);
      JudgeMoves(b, live.value, p, s, m);
    } else {
      SupersedeStaleOrdersStay(b, symbol, s.policy, |b.triggers|);
      var raised := Raise(SupersedeStale(b, symbol, s.policy, |b.triggers|), symbol, p.version, s.policy);
      JudgeMoves(raised, |b.triggers|, p, s, m);
      JudgeSellsExactly(raised, |b.triggers|, p, s, m);
    }
  }

  lemma {:induction false} SupersedeStaleOrdersStay(b: Board, symbol: Symbol, policy: Option<Id>, n: nat)
    requires n <= |b.triggers|
    ensures SupersedeStale(b, symbol, policy, n).orders == b.orders
  {
    if n > 0 {
      SupersedeStaleOrdersStay(b, symbol, policy, n - 1);
    }
  }

  /** Where no trigger is live, the rows before stay and a new one is about the position evaluated. */
  lemma EndedRowsEvaluated(b: Board, symbol: Symbol, p: Position, s: StopSetting, m: Moment)
    requires EvaluatePosition(b, symbol, p, s, m).Some? && forall t :: 0 <= t < |b.triggers| ==> !Live(b.triggers[t])
    ensures var after := EvaluatePosition(b, symbol, p, s, m).value.triggers;
            && b.triggers <= after
            && forall t :: |b.triggers| <= t < |after| ==> after[t].symbol == symbol && after[t].version == p.version
  {
    hide ShouldTrigger, StopPrice, Judge, SupersedeStale, Taken;
    NothingStale(b, symbol, s.policy, |b.triggers|);
    JudgeMoves(Raise(b, symbol, p.version, s.policy), |b.triggers|, p, s, m);
  }

  lemma {:induction false} NothingStale(b: Board, symbol: Symbol, policy: Option<Id>, n: nat)
    requires n <= |b.triggers| && forall t :: 0 <= t < |b.triggers| ==> !Live(b.triggers[t])
    ensures SupersedeStale(b, symbol, policy, n) == b
  {
    if n > 0 {
      NothingStale(b, symbol, policy, n - 1);
    }
  }

  /** The orders of triggers t and u: one was there before, and the other came after it. */
  ghost predicate OrderedAgain(before: seq<OrderRow>, after: seq<OrderRow>, t: Id, u: Id) {
    exists i, j :: 0 <= i < |before| <= j < |after| && OrderedBy(after[i], t) && OrderedBy(after[j], u)
  }

  lemma OrderedAgainExactly(b: Board, after: Board, t: Id, u: Id, sells: bool)
    requires StopOrdersMatch(b) && t < |b.triggers| && b.triggers[t].state == Fulfilled
    requires if sells then SoldBy(b, after, u) else after.orders == b.orders
    ensures OrderedAgain(b.orders, after.orders, t, u) <==> sells
  {
    var i :| 0 <= i < |b.orders| && OrderedBy(b.orders[i], t);
    if sells {
      assert after.orders[i] == after.orders[..|b.orders|][i];
      assert OrderedBy(after.orders[i], t) && OrderedBy(after.orders[|b.orders|], u);
    }
  }

  /**
   * After a stop was fulfilled, the unchanged position version gets a second
   * order from an evaluation exactly if nothing keeps a trigger from selling, and
   * a live trigger watches the version or the bid is at the stop.
   */
  lemma SecondOrderExactly(b: Board, t: Id, p: Position, s: StopSetting, m: Moment)
    requires BoardInv(b) && t < |b.triggers| && b.triggers[t].state == Fulfilled && b.triggers[t].version == p.version
    requires s.policy.None?
    ensures var symbol := b.triggers[t].symbol;
            var after := EvaluatePosition(b, symbol, p, s, m);
            var live := FindLive(b.triggers, symbol, p.version, s.policy).Some?;
            var u := Judged(b, symbol, p, s);
            && after.Some? && u != t
            && (|after.value.triggers| > |b.triggers| <==> !live && Fires(p, s, m))
            && (u < |after.value.triggers| ==> after.value.triggers[u].version == p.version)
            && (OrderedAgain(b.orders, after.value.orders, t, u) <==>
                (live || Fires(p, s, m)) && Sells(b.orders, u, symbol, p, s, m))
  {
    hide Fires, EvaluatePosition, Sells, SoldBy, OneLive, OneRowEach, NonePending, EventsOwned, StopOrdersMatch,
      OrderedAgain;
    var symbol := b.triggers[t].symbol;
    var after := EvaluatePosition(b, symbol, p, s, m);
    EvaluationSellsExactly(b, symbol, p, s, m);
    JudgedVersion(b, symbol, p, s, m);
    var u := Judged(b, symbol, p, s);
    var sells := (FindLive(b.triggers, symbol, p.version, s.policy).Some? || Fires(p, s, m))
      && Sells(b.orders, u, symbol, p, s, m);
    OrderedAgainExactly(b, after.value, t, u, sells);
  }

  lemma JudgedVersion(b: Board, symbol: Symbol, p: Position, s: StopSetting, m: Moment)
    requires EvaluatePosition(b, symbol, p, s, m).Some?
    ensures var after := EvaluatePosition(b, symbol, p, s, m).value.triggers;
            var u := Judged(b, symbol, p, s);
            u < |after| ==> after[u].version == p.version
  {
    hide ShouldTrigger, StopPrice, Judge, SupersedeStale, Taken;
    var live := FindLive(b.triggers, symbol, p.version, s.policy);
    if live.Some? {
      JudgeMoves(b, live.value, p, s, m);
    } else {
      JudgeMoves(Raise(SupersedeStale(b, symbol, s.policy, |b.triggers|), symbol, p.version, s.policy), |b.triggers|, p,
                 s, m);
    }
  }

  /** Looking at a pending exit u of the same version again does so too, whatever the price and the policy. */
  lemma SecondOrderByRecoveryExactly(b: Board, t: Id, u: Id, p: Position, s: StopSetting, m: Moment)
    requires BoardInv(b) && t < |b.triggers| && b.triggers[t].state == Fulfilled
    requires u < |b.triggers| && b.triggers[u].state == ExitPending
    requires b.triggers[t].symbol == b.triggers[u].symbol && b.triggers[t].version == b.triggers[u].version == p.version
    ensures OrderedAgain(b.orders, RecoverExit(b, u, Some(p), s, m).orders, t, u)
            <==> Sells(b.orders, u, b.triggers[u].symbol, p, s, m)
  {
    hide Sells, SoldBy, OneLive, OneRowEach, NonePending, EventsOwned, StopOrdersMatch, OrderedAgain, ReEvaluate;
    ReEvaluationSellsExactly(b, u, p, s, m);
    OrderedAgainExactly(b, RecoverExit(b, u, Some(p), s, m), t, u, Sells(b.orders, u, b.triggers[u].symbol, p, s, m));
  }

  /** A new trigger has the policy it was evaluated under. */
  lemma EvaluateSetsPolicy(b: Board, symbol: Symbol, p: Position, s: StopSetting, m: Moment)
    requires EvaluatePosition(b, symbol, p, s, m).Some?
    ensures var after := EvaluatePosition(b, symbol, p, s, m).value.triggers;
            && |b.triggers| <= |after|
            && (forall t :: 0 <= t < |b.triggers| ==> after[t].policy == b.triggers[t].policy)
            && (forall t :: |b.triggers| <= t < |after| ==> after[t].policy == s.policy)
  {
    hide Judge, Supersede, ShouldTrigger, StopPrice, SupersedeStale, Taken;
    var existing := FindLive(b.triggers, symbol, p.version, s.policy);
    if existing.Some? {
      JudgeMoves(b, existing.value, p, s, m);
      SupersedeMoves(b, existing.value, ByPositionClosed);
    } else {
      SupersedeStalePolicies(b, symbol, s.policy, |b.triggers|);
      var cleared := SupersedeStale(b, symbol, s.policy, |b.triggers|);
      JudgeMoves(Raise(cleared, symbol, p.version, s.policy), |b.triggers|, p, s, m);
    }
  }

  lemma {:induction false} SupersedeStalePolicies(b: Board, symbol: Symbol, policy: Option<Id>, n: nat)
    requires n <= |b.triggers|
    ensures forall t :: 0 <= t < |b.triggers| ==>
              SupersedeStale(b, symbol, policy, n).triggers[t].policy == b.triggers[t].policy
  {
    if n > 0 {
      SupersedeStalePolicies(b, symbol, policy, n - 1);
    }
  }
}
