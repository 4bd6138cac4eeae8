/**
 * The agent runtime: workers claim the eight stages of a run under a lease, an
 * attempt count and a fencing token. This module holds the rows, the effect of
 * each worker action on one run, and what every action keeps.
 */
module AgentDag {
  import opened Common

  datatype Role =
    | IntelCollector
    | EvidenceVerifier
    | TechnicalScout
    | NewsScout
    | MarketScout
    | PositionScout
    | CandidateAuditor
    | Core

  predicate Scout(role: Role) {
    role.TechnicalScout? || role.NewsScout? || role.MarketScout? || role.PositionScout?
  }

  /** The edges of the stage graph: role starts only after dep. */
  predicate DependsOn(role: Role, dep: Role) {
    match role
    case IntelCollector => false
    case EvidenceVerifier => dep.IntelCollector?
    case CandidateAuditor => Scout(dep)
    case Core => Scout(dep) || dep.CandidateAuditor?
    case _ => dep.EvidenceVerifier?
  }

  /** Routed roles run once; the three server roles may be retried once. */
  function MaxAttempts(role: Role): nat {
    if role.IntelCollector? || role.EvidenceVerifier? || role.CandidateAuditor? then 2 else 1
  }

  /** Stages that may still run over failed dependencies, once all of them are terminal. */
  predicate Reduces(role: Role) {
    role.CandidateAuditor? || role.Core?
  }

  datatype StageState =
    | Pending | Running
    | Succeeded | NotApplicable | InsufficientData | Conflicted
    | TimedOut | Failed | InvalidOutput

  predicate DependencyOk(s: StageState) {
    s.Succeeded? || s.NotApplicable? || s.InsufficientData? || s.Conflicted?
  }

  predicate Failing(s: StageState) {
    s.Failed? || s.TimedOut? || s.InvalidOutput?
  }

  predicate Terminal(s: StageState) {
    DependencyOk(s) || Failing(s)
  }

  datatype StageError =
    | LeaseExpiredRetry | InvocationOutcomeUnknown | AttemptsExhausted
    | DependencyFailed | StaleBeforeStart | StageTimeout | StageFailed

  type Worker = string

  datatype Stage = Stage(
    state: StageState,
    owner: Option<Worker>,
    leaseExpiresAt: Option<int>,
    fencingToken: nat,
    attemptCount: nat,
    maxAttempts: nat,
    invoked: bool,
    availableAt: int,
    timeoutSeconds: nat,
    timeoutAt: Option<int>,
    error: Option<StageError>)

  type StageTable = m: map<Role, Stage> | forall r: Role :: r in m
    witness Table(r => FreshStage(r, 0, 0))

  /** The stage table holding f(r) for every role r. */
  function Table(f: Role -> Stage): (table: map<Role, Stage>)
    ensures forall r: Role :: r in table && table[r] == f(r)
  {
    map r: Role | true :: f(r)
  }

  datatype RunState = Created | Started | RunSucceeded | Partial | RunFailed | Cancelled

  datatype Bundle = Verified | Unverified

  datatype RunError = CoreError(error: StageError) | AgentStageFailed

  datatype Run = Run(
    state: RunState,
    validUntil: int,
    bundle: Option<Bundle>,
    stages: StageTable,
    coreWaits: bool,
    error: Option<RunError>,
    completedAt: Option<int>)

  predicate Finished(run: Run) {
    run.state.RunSucceeded? || run.state.Partial? || run.state.RunFailed? || run.state.Cancelled?
  }

  predicate AllTerminal(run: Run) {
    forall r: Role :: Terminal(run.stages[r].state)
  }

  function FreshStage(role: Role, now: int, timeoutSeconds: nat): Stage {
    Stage(Pending, None, None, 0, 0, MaxAttempts(role), false, now, timeoutSeconds, None, None)
  }

  function FreshRun(validUntil: int, timeoutSeconds: map<Role, nat>, now: int): Run {
    Run(Created, validUntil, None,
        Table(r => FreshStage(r, now, if r in timeoutSeconds then timeoutSeconds[r] else 10)),
        false, None, None)
  }

  function SetStage(run: Run, role: Role, stage: Stage): Run {
    run.(stages := run.stages[role := stage])
  }

  // ---------------------------------------------------------------- finalization

  function Verdict(run: Run): RunState {
    if run.stages[Core].state != Succeeded || exists r: Role :: Failing(run.stages[r].state) then
      RunFailed
    else if (exists r: Role :: !run.stages[r].state.Succeeded? && !run.stages[r].state.NotApplicable?)
             || run.bundle != Some(Verified) then
      Partial
    else
      RunSucceeded
  }

  function Finalize(run: Run, now: int): Run {
    if !AllTerminal(run) then
      run
    else
      var core := run.stages[Core];
      var verdict := Verdict(run);
      run.(state := verdict,
           coreWaits := core.state == Succeeded,
           error := if verdict != RunFailed then run.error
                    else if core.error.Some? then Some(CoreError(core.error.value))
                    else Some(AgentStageFailed),
           completedAt := Some(now))
  }

  // ---------------------------------------------------------------- recovery

  predicate Expired(stage: Stage, now: int) {
    stage.state == Running && stage.leaseExpiresAt.Some? && stage.leaseExpiresAt.value <= now
  }

  function Recovered(stage: Stage, now: int): Stage {
    var released := stage.(owner := None, leaseExpiresAt := None);
    if !stage.invoked && stage.attemptCount < stage.maxAttempts then
      released.(state := Pending, error := Some(LeaseExpiredRetry), availableAt := now, timeoutAt := None)
    else
      released.(state := TimedOut,
                error := Some(if stage.invoked then InvocationOutcomeUnknown else AttemptsExhausted))
  }

  /** Recovery of one stage, with the finalization that follows it. */
  function RecoverStage(run: Run, role: Role, now: int): Run {
    Finalize(SetStage(run, role, Recovered(run.stages[role], now)), now)
  }

  predicate AnyExpired(run: Run, now: int) {
    exists r: Role :: Expired(run.stages[r], now)
  }

  function Sweep(run: Run, now: int): Run {
    run.(stages := Table(r => if Expired(run.stages[r], now) then Recovered(run.stages[r], now) else run.stages[r]))
  }

  /** What one recovery sweep does to a run: every expired stage at once, then one finalization. */
  function RecoverRun(run: Run, now: int): Run {
    if AnyExpired(run, now) then Finalize(Sweep(run, now), now) else run
  }

  // ---------------------------------------------------------------- claiming

  datatype Action = Skip | CascadeFailure | GoStale | Start

  /** What the claim loop does when it meets this stage. */
  function Decide(run: Run, role: Role, now: int): Action {
    var stage := run.stages[role];
    if stage.state != Pending || stage.availableAt > now || Finished(run) then
      Skip
    else
      var failed := exists d: Role :: DependsOn(role, d) && Failing(run.stages[d].state);
      if failed && !Reduces(role) then
        CascadeFailure
      else if failed && exists d: Role :: DependsOn(role, d) && !Terminal(run.stages[d].state) then
        Skip
      else if !failed && exists d: Role :: DependsOn(role, d) && !DependencyOk(run.stages[d].state) then
        Skip
      else if run.validUntil <= now then
        GoStale
      else
        Start
  }

  /** The stage row after the claim loop acted on it. */
  function Acted(run: Run, role: Role, worker: Worker, leaseSeconds: nat, now: int): Stage {
    var stage := run.stages[role];
    match Decide(run, role, now)
    case Skip => stage
    case CascadeFailure => stage.(state := Failed, error := Some(DependencyFailed))
    case GoStale => stage.(state := TimedOut, error := Some(StaleBeforeStart))
    case Start =>
      stage.(state := Running,
             owner := Some(worker),
             leaseExpiresAt := Some(now + leaseSeconds),
             fencingToken := stage.fencingToken + 1,
             attemptCount := stage.attemptCount + 1,
             timeoutAt := Some(now + stage.timeoutSeconds))
  }

  function Act(run: Run, role: Role, worker: Worker, leaseSeconds: nat, now: int): Run {
    var moved := SetStage(run, role, Acted(run, role, worker, leaseSeconds, now));
    match Decide(run, role, now)
    case Skip => run
    case Start => if run.state == Created then moved.(state := Started) else moved
    case _ => Finalize(moved, now)
  }

  // ---------------------------------------------------------------- execution

  /**
   * What running a claimed stage came to: a terminal state it stored, or an
   * exception. Only the verifier writes the evidence bundle.
   */
  datatype Outcome =
    | Stored(state: StageState, invoked: bool, bundle: Bundle)
    | Raised(timeout: bool, invoked: bool)

  /** Only a scout stores its assessment's own status; every other role stores SUCCEEDED. */
  predicate ValidOutcome(role: Role, outcome: Outcome) {
    outcome.Stored? ==> if Scout(role) then Terminal(outcome.state) else outcome.state == Succeeded
  }

  predicate HoldsClaim(stage: Stage, worker: Worker, token: nat) {
    stage.state == Running && stage.owner == Some(worker) && stage.fencingToken == token
  }

  predicate Late(stage: Stage, now: int) {
    stage.timeoutAt.Some? && stage.timeoutAt.value <= now
  }

  function Executed(stage: Stage, outcome: Outcome, now: int): Stage {
    var released := stage.(owner := None, leaseExpiresAt := None);
    if Late(stage, now) then
      released.(state := TimedOut, error := Some(StageTimeout))
    else
      var invoked := released.(invoked := stage.invoked || outcome.invoked);
      match outcome
      case Stored(state, _, _) => invoked.(state := state)
      case Raised(true, _) => invoked.(state := TimedOut, error := Some(StageTimeout))
      case Raised(false, _) => invoked.(state := Failed, error := Some(StageFailed))
  }

  function Execute(run: Run, role: Role, outcome: Outcome, now: int): Run {
    var stage := run.stages[role];
    var done := SetStage(run, role, Executed(stage, outcome, now));
    var wrote := role == EvidenceVerifier && outcome.Stored? && !Late(stage, now);
    Finalize(if wrote then done.(bundle := Some(outcome.bundle)) else done, now)
  }

  // ---------------------------------------------------------------- invariant of one run

  ghost predicate StageInv(role: Role, stage: Stage) {
    && stage.maxAttempts == MaxAttempts(role)
    && stage.fencingToken == stage.attemptCount <= stage.maxAttempts
    && (stage.state == Pending ==> stage.attemptCount < stage.maxAttempts)
    && (stage.state == Running ==> 0 < stage.attemptCount)
    && (stage.state == Running <==> stage.owner.Some?)
    && (stage.owner.Some? <==> stage.leaseExpiresAt.Some?)
    && (stage.invoked ==> Terminal(stage.state))
    && (DependencyOk(stage.state) && stage.state != Succeeded ==> Scout(role))
    && (stage.state == InvalidOutput ==> Scout(role))
  }

  /** A stage leaves PENDING only after everything it depends on is terminal. */
  ghost predicate Ordered(run: Run) {
    forall r: Role, d: Role {:trigger DependsOn(r, d)} ::
      DependsOn(r, d) && run.stages[r].state != Pending ==> Terminal(run.stages[d].state)
  }

  /** The evidence bundle is there exactly when the verifier succeeded. */
  ghost predicate BundleInv(run: Run) {
    run.bundle.Some? <==> run.stages[EvidenceVerifier].state == Succeeded
  }

  ghost predicate RunInv(run: Run) {
    && (forall r: Role :: StageInv(r, run.stages[r]))
    && Ordered(run)
    && BundleInv(run)
    && run.state != Cancelled
    && (Finished(run) <==> AllTerminal(run))
    && (Finished(run) <==> run.completedAt.Some?)
    && (Finished(run) ==>
          && run.state == Verdict(run)
          && run.coreWaits == (run.stages[Core].state == Succeeded)
          && (run.state == RunFailed <==> run.error.Some?))
    && (!Finished(run) ==> run.error == None)
  }

  // ---------------------------------------------------------------- termination measure

  function Weight(stage: Stage): int {
    if Terminal(stage.state) then 0
    else 2 * (stage.maxAttempts - stage.attemptCount) + if stage.state == Running then 1 else 0
  }

  function Measure(run: Run): int {
    Weight(run.stages[IntelCollector]) + Weight(run.stages[EvidenceVerifier])
    + Weight(run.stages[TechnicalScout]) + Weight(run.stages[NewsScout])
    + Weight(run.stages[MarketScout]) + Weight(run.stages[PositionScout])
    + Weight(run.stages[CandidateAuditor]) + Weight(run.stages[Core])
  }

  function Count(run: Run, now: int, role: Role): nat {
    if Expired(run.stages[role], now) then 1 else 0
  }

  /** How many stages of the run one recovery sweep moves. */
  function ExpiredCount(run: Run, now: int): nat {
    Count(run, now, IntelCollector) + Count(run, now, EvidenceVerifier)
    + Count(run, now, TechnicalScout) + Count(run, now, NewsScout)
    + Count(run, now, MarketScout) + Count(run, now, PositionScout)
    + Count(run, now, CandidateAuditor) + Count(run, now, Core)
  }

  // ---------------------------------------------------------------- one action on one run

  lemma FreshRunInv(validUntil: int, timeoutSeconds: map<Role, nat>, now: int)
    ensures RunInv(FreshRun(validUntil, timeoutSeconds, now))
    ensures Measure(FreshRun(validUntil, timeoutSeconds, now)) == 22
  {
    hide Verdict, Measure;
    var run := FreshRun(validUntil, timeoutSeconds, now);
    assert !Terminal(run.stages[Core].state);
    FreshMeasure(run);
  }

  lemma FreshMeasure(run: Run)
    requires forall r: Role :: run.stages[r].state == Pending && run.stages[r].attemptCount == 0
    requires forall r: Role :: run.stages[r].maxAttempts == MaxAttempts(r)
    ensures Measure(run) == 22
  {
  }

  /** A run whose stages moved and which has not been looked at by finalization yet. */
  ghost predicate Undecided(run: Run) {
    && (forall r: Role :: StageInv(r, run.stages[r]))
    && Ordered(run)
    && BundleInv(run)
    && !Finished(run) && run.completedAt == None && run.error == None
  }

  /** Finalization decides a run at the moment its last stage becomes terminal, never before. */
  lemma FinalizeKeepsInv(run: Run, now: int)
    requires Undecided(run)
    ensures RunInv(Finalize(run, now))
    ensures Finalize(run, now).stages == run.stages
  {
  }

  lemma CoreIsLast(run: Run)
    requires RunInv(run)
    ensures run.stages[Core].state != Pending ==> forall r: Role :: r != Core ==> Terminal(run.stages[r].state)
    ensures Finished(run) <==> Terminal(run.stages[Core].state)
  {
    hide Verdict, StageInv;
    if run.stages[Core].state != Pending {
      assert DependsOn(Core, TechnicalScout);
      assert DependsOn(TechnicalScout, EvidenceVerifier);
      assert DependsOn(EvidenceVerifier, IntelCollector);
      forall r: Role | r != Core
        ensures Terminal(run.stages[r].state)
      {
        assert r == EvidenceVerifier || r == IntelCollector || DependsOn(Core, r);
      }
    }
  }

  /** What no action of any worker undoes, on one stage. */
  ghost predicate StageAdvances(before: Stage, after: Stage) {
    && (Terminal(before.state) ==> after == before)
    && before.fencingToken <= after.fencingToken
    && (before.state != Running && after.state == Running ==> before.fencingToken < after.fencingToken)
  }

  /** What no action of any worker undoes, on a whole run. */
  ghost predicate Advances(before: Run, after: Run) {
    && (forall r: Role :: StageAdvances(before.stages[r], after.stages[r]))
    && (Finished(before) ==> after == before)
    && after.validUntil == before.validUntil
  }

  lemma AdvancesTransitive(a: Run, b: Run, c: Run)
    requires Advances(a, b) && Advances(b, c)
    ensures Advances(a, c)
  {
    forall r: Role
      ensures StageAdvances(a.stages[r], c.stages[r])
    {
      assert StageAdvances(a.stages[r], b.stages[r]) && StageAdvances(b.stages[r], c.stages[r]);
    }
  }

  lemma SetStageMeasure(run: Run, role: Role, stage: Stage)
    ensures Measure(SetStage(run, role, stage)) == Measure(run) - Weight(run.stages[role]) + Weight(stage)
  {
    var after := SetStage(run, role, stage).stages;
    assert forall r: Role :: after[r] == if r == role then stage else run.stages[r];
    match role
    case IntelCollector =>
    case EvidenceVerifier =>
    case TechnicalScout =>
    case NewsScout =>
    case MarketScout =>
    case PositionScout =>
    case CandidateAuditor =>
    case Core =>
  }

  lemma SetStageOrdered(run: Run, role: Role, stage: Stage)
    requires Ordered(run) && !Terminal(run.stages[role].state)
    requires stage.state != Pending ==> forall d: Role {:trigger DependsOn(role, d)} :: DependsOn(role, d) ==>
               Terminal(run.stages[d].state)
    ensures Ordered(SetStage(run, role, stage))
  {
    var moved := SetStage(run, role, stage);
    forall r: Role, d: Role | DependsOn(r, d) && moved.stages[r].state != Pending
      ensures Terminal(moved.stages[d].state)
    {
      assert r == role || run.stages[r].state != Pending;
    }
  }

  /** A stage that has become something an action may make of it. */
  ghost predicate MayBecome(run: Run, role: Role, stage: Stage) {
    && !Terminal(run.stages[role].state)
    && StageInv(role, stage)
    && StageAdvances(run.stages[role], stage)
    && (stage.state != Pending ==> forall d: Role {:trigger DependsOn(role, d)} :: DependsOn(role, d) ==>
        Terminal(run.stages[d].state))
    && Weight(stage) < Weight(run.stages[role])
  }

  /** Replacing one stage of an unfinished run by a legal successor leaves a run to decide. */
  lemma StepUndecided(run: Run, moved: Run, role: Role, stage: Stage)
    requires RunInv(run) && MayBecome(run, role, stage)
    requires moved == SetStage(run, role, stage).(bundle := moved.bundle) && BundleInv(moved)
    ensures Undecided(moved)
  {
    SetStageOrdered(run, role, stage);
    assert Ordered(moved);
  }

  lemma StepAdvances(run: Run, next: Run, role: Role, stage: Stage)
    requires !Finished(run) && MayBecome(run, role, stage)
    requires next.stages == run.stages[role := stage] && next.validUntil == run.validUntil
    ensures Advances(run, next) && Measure(next) < Measure(run)
  {
    SetStageMeasure(run, role, stage);
    assert Measure(next) == Measure(SetStage(run, role, stage));
  }

  /** One action on one stage: the run stays legal, loses weight and nothing is undone. */
  ghost predicate Progress(run: Run, next: Run, role: Role) {
    && RunInv(next)
    && Advances(run, next)
    && Measure(next) < Measure(run)
    && next.stages == run.stages[role := next.stages[role]]
  }

  lemma StepProgresses(run: Run, moved: Run, role: Role, stage: Stage, now: int)
    requires RunInv(run) && MayBecome(run, role, stage)
    requires moved == SetStage(run, role, stage).(bundle := moved.bundle) && BundleInv(moved)
    ensures Progress(run, Finalize(moved, now), role)
    ensures Finalize(moved, now).stages[role] == stage
  {
    StepUndecided(run, moved, role, stage);
    FinalizeKeepsInv(moved, now);
    StepAdvances(run, Finalize(moved, now), role, stage);
  }

  lemma DecidedOverTerminalDependencies(run: Run, role: Role, now: int)
    requires Decide(run, role, now) != Skip
    ensures forall d: Role {:trigger DependsOn(role, d)} :: DependsOn(role, d) ==> Terminal(run.stages[d].state)
  {
  }

  lemma ActMayBecome(run: Run, role: Role, stage: Stage, worker: Worker, leaseSeconds: nat, now: int)
    requires StageInv(role, run.stages[role]) && Decide(run, role, now) != Skip
    requires stage == Acted(run, role, worker, leaseSeconds, now)
    ensures MayBecome(run, role, stage)
  {
    DecidedOverTerminalDependencies(run, role, now);
  }

  lemma StartProgresses(run: Run, next: Run, role: Role, stage: Stage)
    requires RunInv(run) && MayBecome(run, role, stage) && stage.state == Running
    requires next == SetStage(run, role, stage).(state := if run.state == Created then Started else run.state)
    ensures Progress(run, next, role)
  {
    hide Verdict, Measure, Advances, StageInv;
    StepUndecided(run, SetStage(run, role, stage), role, stage);
    RunningKeepsInv(next, role);
    StepAdvances(run, next, role, stage);
  }

  lemma RunningKeepsInv(run: Run, role: Role)
    requires Undecided(run) && run.stages[role].state == Running
    ensures RunInv(run)
  {
  }

  lemma ActedFits(run: Run, role: Role, worker: Worker, leaseSeconds: nat, now: int)
    requires RunInv(run) && Decide(run, role, now) != Skip
    ensures StageInv(role, run.stages[role])
    ensures BundleInv(SetStage(run, role, Acted(run, role, worker, leaseSeconds, now)))
    ensures Acted(run, role, worker, leaseSeconds, now).state == Running <==> Decide(run, role, now) == Start
  {
    hide Verdict, AllTerminal, Ordered;
  }

  lemma ActKeepsInv(run: Run, role: Role, worker: Worker, leaseSeconds: nat, now: int)
    requires RunInv(run) && Decide(run, role, now) != Skip
    ensures Progress(run, Act(run, role, worker, leaseSeconds, now), role)
  {
    hide Verdict, Measure, Advances, Decide, RunInv, Progress, MayBecome, StageInv, AllTerminal, BundleInv, Finalize;
    ActedFits(run, role, worker, leaseSeconds, now);
    var stage := Acted(run, role, worker, leaseSeconds, now);
    ActMayBecome(run, role, stage, worker, leaseSeconds, now);
    if stage.state == Running {
      StartProgresses(run, Act(run, role, worker, leaseSeconds, now), role, stage);
    } else {
      StepProgresses(run, SetStage(run, role, stage), role, stage, now);
    }
  }

  lemma ExecutedStage(role: Role, stage: Stage, outcome: Outcome, now: int)
    requires StageInv(role, stage) && stage.state == Running && ValidOutcome(role, outcome)
    ensures var done := Executed(stage, outcome, now);
            StageInv(role, done) && StageAdvances(stage, done) && Terminal(done.state)
  {
  }

  lemma ExecuteMayBecome(run: Run, role: Role, outcome: Outcome, now: int)
    requires StageInv(role, run.stages[role]) && Ordered(run)
    requires run.stages[role].state == Running && ValidOutcome(role, outcome)
    ensures MayBecome(run, role, Executed(run.stages[role], outcome, now))
  {
    ExecutedStage(role, run.stages[role], outcome, now);
  }

  lemma ExecuteKeepsInv(run: Run, role: Role, worker: Worker, token: nat, outcome: Outcome, now: int)
    requires RunInv(run) && HoldsClaim(run.stages[role], worker, token) && ValidOutcome(role, outcome)
    ensures Progress(run, Execute(run, role, outcome, now), role)
    ensures Execute(run, role, outcome, now).stages[role] == Executed(run.stages[role], outcome, now)
    ensures Terminal(Execute(run, role, outcome, now).stages[role].state)
  {
    var stage := Executed(run.stages[role], outcome, now);
    var done := SetStage(run, role, stage);
    var wrote := role == EvidenceVerifier && outcome.Stored? && !Late(run.stages[role], now);
    ExecutedStage(role, run.stages[role], outcome, now);
    ExecuteMayBecome(run, role, outcome, now);
    StepProgresses(run, if wrote then done.(bundle := Some(outcome.bundle)) else done, role, stage, now);
  }

  lemma RecoveredStage(role: Role, stage: Stage, now: int)
    requires StageInv(role, stage) && Expired(stage, now)
    ensures StageInv(role, Recovered(stage, now)) && StageAdvances(stage, Recovered(stage, now))
    ensures Weight(Recovered(stage, now)) < Weight(stage)
  {
  }

  lemma SweepUndecided(run: Run, now: int)
    requires RunInv(run) && !Finished(run)
    ensures Undecided(Sweep(run, now))
  {
    var moved := Sweep(run, now);
    forall r: Role
      ensures StageInv(r, moved.stages[r])
    {
      if Expired(run.stages[r], now) {
        RecoveredStage(r, run.stages[r], now);
      }
    }
    forall r: Role, d: Role | DependsOn(r, d) && moved.stages[r].state != Pending
      ensures Terminal(moved.stages[d].state)
    {
      assert run.stages[r].state != Pending;
    }
  }

  lemma RecoverKeepsInv(run: Run, now: int)
    requires RunInv(run)
    ensures RunInv(RecoverRun(run, now))
  {
    hide Verdict, StageInv, Ordered, BundleInv, Recovered, Finalize, Sweep;
    if e: Role :| Expired(run.stages[e], now) {
      assert !Finished(run);
      SweepUndecided(run, now);
      FinalizeKeepsInv(Sweep(run, now), now);
    }
  }

  /** A sweep moves exactly the stages whose lease ran out. */
  lemma RecoveredStages(run: Run, now: int)
    ensures forall r: Role :: RecoverRun(run, now).stages[r] ==
              if Expired(run.stages[r], now) then Recovered(run.stages[r], now) else run.stages[r]
  {
  }

  lemma UntouchedAdvances(run: Run)
    ensures forall r: Role :: StageAdvances(run.stages[r], run.stages[r])
  {
  }

  lemma RecoverAdvances(run: Run, now: int)
    requires RunInv(run)
    ensures Advances(run, RecoverRun(run, now))
  {
    hide Verdict, Ordered, BundleInv, StageAdvances, Recovered, StageInv;
    if Finished(run) {
      assert !AnyExpired(run, now);
    }
    RecoverAdvancesStages(run, now);
  }

  lemma RecoverAdvancesStages(run: Run, now: int)
    requires RunInv(run)
    ensures forall r: Role :: StageAdvances(run.stages[r], RecoverRun(run, now).stages[r])
  {
    hide Verdict, StageInv, Ordered, BundleInv, StageAdvances, Recovered, RecoverRun;
    UntouchedAdvances(run);
    RecoveredStages(run, now);
    forall r: Role
      ensures StageAdvances(run.stages[r], RecoverRun(run, now).stages[r])
    {
      if Expired(run.stages[r], now) {
        RecoveredStage(r, run.stages[r], now);
      }
    }
  }

  /** Every stage a sweep moves loses weight. */
  lemma RecoverLosesWeight(run: Run, now: int)
    requires RunInv(run)
    ensures Measure(RecoverRun(run, now)) + ExpiredCount(run, now) <= Measure(run)
  {
    RecoveredStages(run, now);
    forall r: Role
      ensures Weight(RecoverRun(run, now).stages[r]) + Count(run, now, r) <= Weight(run.stages[r])
    {
      if Expired(run.stages[r], now) {
        RecoveredStage(r, run.stages[r], now);
      }
    }
  }

  lemma ReadyStageActs(run: Run, role: Role, now: int)
    requires !Finished(run) && run.stages[role].state == Pending && run.stages[role].availableAt <= now
    requires forall d: Role {:trigger DependsOn(role, d)} :: DependsOn(role, d) ==> Terminal(run.stages[d].state)
    ensures Decide(run, role, now) != Skip
  {
  }

  /** Some stage is running under a lease that has not run out, or pending and not yet available. */
  ghost predicate Waiting(run: Run, now: int) {
    exists r: Role ::
      var stage := run.stages[r];
      || (stage.state == Running && stage.leaseExpiresAt.Some? && now < stage.leaseExpiresAt.value)
      || (stage.state == Pending && now < stage.availableAt)
  }

  /** Deadlock freedom: an unfinished run that waits for no lease and no
   * availability has a stage the claim loop acts on. */
  lemma SomeStageActs(run: Run, now: int) returns (role: Role)
    requires RunInv(run) && !Finished(run)
    requires forall r: Role :: run.stages[r].state != Running
    requires !Waiting(run, now)
    ensures Decide(run, role, now) != Skip
  {
    CoreIsLast(run);
    role := FirstPending(run);
    ReadyStageActs(run, role, now);
  }

  lemma FirstPending(run: Run) returns (role: Role)
    requires run.stages[Core].state == Pending
    requires forall r: Role :: run.stages[r].state != Running
    ensures run.stages[role].state == Pending
    ensures forall d: Role {:trigger DependsOn(role, d)} :: DependsOn(role, d) ==> Terminal(run.stages[d].state)
  {
    hide Terminal;
    if run.stages[IntelCollector].state == Pending {
      role := IntelCollector;
    } else if run.stages[EvidenceVerifier].state == Pending {
      role := EvidenceVerifier;
    } else if s: Role :| Scout(s) && run.stages[s].state == Pending {
      role := s;
    } else if run.stages[CandidateAuditor].state == Pending {
      role := CandidateAuditor;
    } else {
      role := Core;
    }
    SettledDependencies(run, role);
  }

  lemma SettledDependencies(run: Run, role: Role)
    requires forall d: Role {:trigger DependsOn(role, d)} ::
               DependsOn(role, d) ==> run.stages[d].state != Pending && run.stages[d].state != Running
    ensures forall d: Role {:trigger DependsOn(role, d)} :: DependsOn(role, d) ==> Terminal(run.stages[d].state)
  {
  }

  /** A run is FAILED exactly when it is decided and CORE or any other stage went wrong. */
  lemma FailedMeans(run: Run)
    requires RunInv(run)
    ensures run.state == RunFailed <==>
              AllTerminal(run) && (run.stages[Core].state != Succeeded
                                   || exists r: Role :: Failing(run.stages[r].state))
  {
  }

  ghost predicate AllGood(run: Run) {
    forall r: Role :: run.stages[r].state.Succeeded? || run.stages[r].state.NotApplicable?
  }

  /** A run is SUCCEEDED exactly when every stage succeeded or did not apply, over verified evidence. */
  lemma SucceededMeans(run: Run)
    requires RunInv(run)
    ensures run.state == RunSucceeded <==> AllGood(run) && run.bundle == Some(Verified)
  {
    if AllGood(run) {
      assert StageInv(Core, run.stages[Core]);
      assert run.stages[Core].state == Succeeded;
    } else {
      var r: Role :| !(run.stages[r].state.Succeeded? || run.stages[r].state.NotApplicable?);
      assert Verdict(run) != RunSucceeded;
    }
  }
}
