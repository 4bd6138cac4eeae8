/**
 * Which risk policy a stop evaluation finds. It looks for a version whose target
 * is the account, while every version is drafted for a user.
 */
module StopPolicy {
  import opened Common
  import opened BrokerOrders
  import opened Positions
  import opened OrderCreation
  import opened Guards
  import opened StopTriggers
  import opened Approvals
  import opened OrderDesk
  import PolicyVersions

  const ACCOUNT_ALIAS := "KIWOOM_MOCK_PRIMARY"

  /** What a stop evaluation takes from a risk policy. */
  datatype StopTerms = StopTerms(lossPct: real, staleSeconds: int)

  const DEFAULT_TERMS := StopTerms(-2.0, 2)

  /** The terms written into each version's payload. */
  type Payloads = nat -> StopTerms

  function AccountPolicy(versions: PolicyVersions.Table): Option<Id> {
    PolicyVersions.FindActive(versions, ACCOUNT_ALIAS, PolicyVersions.RiskPolicy)
  }

  function Terms(versions: PolicyVersions.Table, payloads: Payloads): StopTerms {
    var policy := AccountPolicy(versions);
    if policy.Some? then payloads(policy.value) else DEFAULT_TERMS
  }

  function Setting(versions: PolicyVersions.Table, payloads: Payloads, sellsAutomatically: bool): StopSetting {
    StopSetting(AccountPolicy(versions), Terms(versions, payloads).lossPct, sellsAutomatically)
  }

  /** What one worker tick finds for all symbols alike. */
  datatype Tick = Tick(now: int, gate: Option<GateStatus>, sessionTradable: bool, isMock: bool,
                       sellsAutomatically: bool)

  /** The tick for one symbol, with the snapshot at the head of its stream. */
  function At(tick: Tick, versions: PolicyVersions.Table, payloads: Payloads, quote: Option<Quote>): Moment {
    Moment(tick.now, quote, true, tick.gate, tick.sessionTradable, tick.isMock, Terms(versions, payloads).staleSeconds)
  }

  /** Everything a tick reads besides the tables it writes. */
  datatype World = World(versions: PolicyVersions.Table, payloads: Payloads, tick: Tick,
                         quotes: Symbol -> Option<Quote>) {
    function Stop(): StopSetting {
      Setting(versions, payloads, tick.sellsAutomatically)
    }

    function For(symbol: Symbol): Moment {
      At(tick, versions, payloads, quotes(symbol))
    }
  }

  /** The look-up finds the active risk policy of the account alias, if there is one, and its payload's terms. */
  lemma LookUpMeans(versions: PolicyVersions.Table, payloads: Payloads, sellsAutomatically: bool)
    ensures var stop := Setting(versions, payloads, sellsAutomatically);
            && stop.sellsAutomatically == sellsAutomatically
            && (stop.policy.Some? ==>
                  && stop.policy.value < |versions|
                  && var v := versions[stop.policy.value];
                     v.user == "KIWOOM_MOCK_PRIMARY" && v.category == PolicyVersions.RiskPolicy
                     && v.state == PolicyVersions.Active && stop.lossPct == payloads(stop.policy.value).lossPct)
            && (stop.policy.None? ==> forall v :: v in versions ==>
                  v.user != "KIWOOM_MOCK_PRIMARY" || v.category != PolicyVersions.RiskPolicy
                  || v.state != PolicyVersions.Active)
  {
  }

  // ---------------------------------------------------------------- versions drafted for users

  /** No version is drafted for the account itself. Users have generated identifiers. */
  predicate ForUsers(call: PolicyVersions.Call) {
    call.DraftCall? ==> call.user != ACCOUNT_ALIAS
  }

  predicate NoAccountLine(versions: PolicyVersions.Table) {
    forall i :: 0 <= i < |versions| ==> versions[i].user != ACCOUNT_ALIAS
  }

  lemma CallKeepsNoAccountLine(versions: PolicyVersions.Table, call: PolicyVersions.Call)
    requires NoAccountLine(versions) && ForUsers(call)
    ensures NoAccountLine(PolicyVersions.Step(versions, call))
  {
    hide PolicyVersions.Strip, PolicyVersions.MaxSequence;
  }

  lemma {:induction false} NoAccountLineInRuns(calls: seq<PolicyVersions.Call>)
    requires forall i :: 0 <= i < |calls| ==> ForUsers(calls[i])
    ensures NoAccountLine(PolicyVersions.Run([], calls))
  {
    hide PolicyVersions.Step;
    if calls != [] {
      NoAccountLineInRuns(calls[..|calls| - 1]);
      CallKeepsNoAccountLine(PolicyVersions.Run([], calls[..|calls| - 1]), calls[|calls| - 1]);
    }
  }

  lemma DefaultTerms(versions: PolicyVersions.Table, payloads: Payloads, sellsAutomatically: bool)
    requires NoAccountLine(versions)
    ensures Setting(versions, payloads, sellsAutomatically) == StopSetting(None, -2.0, sellsAutomatically)
    ensures Terms(versions, payloads) == DEFAULT_TERMS
  {
  }

  lemma NothingRefusedByDefault(w: World, triggers: seq<Trigger>, symbol: Symbol, p: Position, m: Moment)
    requires NoAccountLine(w.versions)
    ensures !Refuses(triggers, symbol, p, w.Stop(), m)
  {
    hide ShouldTrigger, StopPrice, Terms;
    DefaultTerms(w.versions, w.payloads, w.tick.sellsAutomatically);
  }

  /**
   * Whatever users draft, validate and activate, a stop evaluation uses the default
   * loss and staleness and names no policy.
   */
  lemma StopsNeverUseUserPolicies(calls: seq<PolicyVersions.Call>, payloads: Payloads, sellsAutomatically: bool)
    requires forall i :: 0 <= i < |calls| ==> ForUsers(calls[i])
    ensures var versions := PolicyVersions.Run([], calls);
            && Setting(versions, payloads, sellsAutomatically) == StopSetting(None, -2.0, sellsAutomatically)
            && Terms(versions, payloads) == DEFAULT_TERMS
            && forall tick, quote :: At(tick, versions, payloads, quote) ==
                 Moment(tick.now, quote, true, tick.gate, tick.sessionTradable, tick.isMock, 2)
  {
    NoAccountLineInRuns(calls);
    DefaultTerms(PolicyVersions.Run([], calls), payloads, sellsAutomatically);
  }

  // ---------------------------------------------------------------- the desk together with the policies

  datatype System = System(versions: PolicyVersions.Table, desk: Desk)

  /** Policy calls, stop evaluations under the policy found at that moment, and everything else the desk does. */
  datatype SystemOp =
    | Configure(call: PolicyVersions.Call)
    | Evaluate(symbol: Symbol, tick: Tick, quote: Option<Quote>)
    | Recover(t: Id, tick: Tick, quote: Option<Quote>)
    | Other(op: Op)

  /** The desk step that a system step takes, if it takes one. */
  function DeskOp(versions: PolicyVersions.Table, payloads: Payloads, op: SystemOp): Option<Op> {
    match op
    case Configure(_) => None
    case Evaluate(symbol, tick, quote) =>
      Some(EvaluateStop(symbol, Setting(versions, payloads, tick.sellsAutomatically),
                        At(tick, versions, payloads, quote)))
    case Recover(t, tick, quote) =>
      Some(RecoverStop(t, Setting(versions, payloads, tick.sellsAutomatically), At(tick, versions, payloads, quote)))
    case Other(o) => if o.EvaluateStop? || o.RecoverStop? then None else Some(o)
  }

  ghost function SystemStep(s: System, payloads: Payloads, op: SystemOp): System {
    var next := DeskOp(s.versions, payloads, op);
    System(if op.Configure? then PolicyVersions.Step(s.versions, op.call) else s.versions,
           if next.Some? then OrderDesk.Step(s.desk, next.value) else s.desk)
  }

  ghost function SystemRun(payloads: Payloads, ops: seq<SystemOp>): System {
    if ops == [] then System([], OrderDesk.EMPTY)
    else SystemStep(SystemRun(payloads, ops[..|ops| - 1]), payloads, ops[|ops| - 1])
  }

  ghost function DeskOps(payloads: Payloads, ops: seq<SystemOp>): seq<Op> {
    if ops == [] then []
    else
      var next := DeskOp(SystemRun(payloads, ops[..|ops| - 1]).versions, payloads, ops[|ops| - 1]);
      DeskOps(payloads, ops[..|ops| - 1]) + if next.Some? then [next.value] else []
  }

  /** Nothing else is stop evaluation: every system run is a run of the desk, so all that holds of those holds here. */
  lemma {:induction false} SystemRunsAreDeskRuns(payloads: Payloads, ops: seq<SystemOp>)
    ensures SystemRun(payloads, ops).desk == OrderDesk.Run(OrderDesk.EMPTY, DeskOps(payloads, ops))
  {
    hide OrderDesk.Step, DeskOp, PolicyVersions.Step;
    if ops != [] {
      var before := ops[..|ops| - 1];
      SystemRunsAreDeskRuns(payloads, before);
      var next := DeskOp(SystemRun(payloads, before).versions, payloads, ops[|ops| - 1]);
      if next.Some? {
        assert (DeskOps(payloads, before) + [next.value])[..|DeskOps(payloads, before)|] == DeskOps(payloads, before);
      } else {
        assert DeskOps(payloads, ops) == DeskOps(payloads, before);
      }
    }
  }

  predicate DraftsForUsers(ops: seq<SystemOp>) {
    forall i :: 0 <= i < |ops| && ops[i].Configure? ==> ForUsers(ops[i].call)
  }

  predicate NoPolicies(triggers: seq<Trigger>) {
    forall t :: 0 <= t < |triggers| ==> triggers[t].policy.None?
  }

  lemma StepKeepsNoPolicies(d: Desk, op: Op)
    requires NoPolicies(d.triggers) && (op.EvaluateStop? ==> op.stop.policy.None?)
    ensures NoPolicies(OrderDesk.Step(d, op).triggers)
  {
    hide EvaluatePosition, RecoverExit, Route, Approve, Reject, ExpireStale, OutsideOrders;
    match op
    case EvaluateStop(symbol, s, m) =>
      if symbol in d.positions && EvaluatePosition(BoardOf(d), symbol, d.positions[symbol], s, m).Some? {
        EvaluateSetsPolicy(BoardOf(d), symbol, d.positions[symbol], s, m);
      }
    case RecoverStop(t, s, m) =>
      if t < |d.triggers| {
        RecoverMoves(BoardOf(d), t, Get(d.positions, d.triggers[t].symbol), s, m);
      }
    case _ =>
  }

  /**
   * In every run in which versions are drafted for users, no trigger ever names a
   * policy and no evaluation is refused.
   */
  lemma {:induction false} NoStopNamesAPolicy(payloads: Payloads, ops: seq<SystemOp>)
    requires DraftsForUsers(ops)
    ensures var s := SystemRun(payloads, ops);
            && NoAccountLine(s.versions) && NoPolicies(s.desk.triggers)
            && forall symbol, p: Position, sells: bool, m: Moment ::
                 EvaluatePosition(BoardOf(s.desk), symbol, p, Setting(s.versions, payloads, sells), m).Some?
  {
    hide OrderDesk.Step, PolicyVersions.Step, EvaluatePosition, NoPolicies, NoAccountLine, Setting;
    if ops == [] {
      NothingDrafted();
    } else {
      var n := |ops| - 1;
      NoStopNamesAPolicy(payloads, ops[..n]);
      var before := SystemRun(payloads, ops[..n]);
      if ops[n].Configure? {
        CallKeepsNoAccountLine(before.versions, ops[n].call);
      }
      var next := DeskOp(before.versions, payloads, ops[n]);
      if next.Some? {
        OpsNameNoPolicy(before.versions, payloads, ops[n]);
        StepKeepsNoPolicies(before.desk, next.value);
      }
    }
    var s := SystemRun(payloads, ops);
    forall symbol, p: Position, sells: bool, m: Moment
      ensures EvaluatePosition(BoardOf(s.desk), symbol, p, Setting(s.versions, payloads, sells), m).Some?
    {
      NeverRefused(s, payloads, symbol, p, sells, m);
    }
  }

  lemma NothingDrafted()
    ensures NoAccountLine([]) && NoPolicies(OrderDesk.EMPTY.triggers)
  {
  }

  lemma OpsNameNoPolicy(versions: PolicyVersions.Table, payloads: Payloads, op: SystemOp)
    requires NoAccountLine(versions)
    ensures var next := DeskOp(versions, payloads, op);
            next.Some? && next.value.EvaluateStop? ==> next.value.stop.policy.None?
  {
  }

  lemma NeverRefused(s: System, payloads: Payloads, symbol: Symbol, p: Position, sells: bool, m: Moment)
    requires NoAccountLine(s.versions)
    ensures EvaluatePosition(BoardOf(s.desk), symbol, p, Setting(s.versions, payloads, sells), m).Some?
  {
    hide EvaluatePosition;
    DefaultTerms(s.versions, payloads, sells);
    RefusedExactly(BoardOf(s.desk), symbol, p, Setting(s.versions, payloads, sells), m);
  }
}
