/**
 * What the calls of a worker make of a stage, a run and its verdict, said without
 * the functions that compute it, and what follows for every run of calls.
 */
module AgentLaws {
  import opened Common
  import opened AgentDag
  import opened AgentWorker
  import opened AgentProtocol

  // ---------------------------------------------------------------- stages and runs, spelled out

  /** The stages a stage waits for. */
  function Needs(role: Role): set<Role> {
    match role
    case IntelCollector => {}
    case EvidenceVerifier => {IntelCollector}
    case TechnicalScout => {EvidenceVerifier}
    case NewsScout => {EvidenceVerifier}
    case MarketScout => {EvidenceVerifier}
    case PositionScout => {EvidenceVerifier}
    case CandidateAuditor => {TechnicalScout, NewsScout, MarketScout, PositionScout}
    case Core => {TechnicalScout, NewsScout, MarketScout, PositionScout, CandidateAuditor}
  }

  predicate Good(s: StageState) {
    s in {Succeeded, NotApplicable, InsufficientData, Conflicted}
  }

  predicate Bad(s: StageState) {
    s in {Failed, TimedOut, InvalidOutput}
  }

  predicate Over(s: StageState) {
    s != Pending && s != Running
  }

  predicate Decided(s: RunState) {
    s in {RunSucceeded, Partial, RunFailed, Cancelled}
  }

  /** What a run with these stages and this bundle is worth once all of them are over. */
  predicate Judged(stages: StageTable, bundle: Option<Bundle>, verdict: RunState) {
    && (verdict == RunFailed <==> stages[Core].state != Succeeded || exists r: Role :: Bad(stages[r].state))
    && (verdict == RunSucceeded <==>
          stages[Core].state == Succeeded && bundle == Some(Verified)
          && forall r: Role :: stages[r].state in {Succeeded, NotApplicable})
    && verdict in {RunFailed, RunSucceeded, Partial}
  }

  /** The run after its stages and bundle became what they are: decided now if all stages are over, else as it was. */
  ghost predicate Settles(run: Run, after: Run, now: int) {
    && after.validUntil == run.validUntil
    && if exists r: Role :: !Over(after.stages[r].state) then
         after.coreWaits == run.coreWaits && after.error == run.error && after.completedAt == run.completedAt
       else
         && Judged(after.stages, after.bundle, after.state)
         && after.completedAt == Some(now)
         && after.coreWaits == (after.stages[Core].state == Succeeded)
         && after.error == if after.state != RunFailed then run.error
                           else if after.stages[Core].error.Some? then Some(CoreError(after.stages[Core].error.value))
                           else Some(AgentStageFailed)
  }

  lemma StatesSpelledOut(s: StageState)
    ensures Good(s) <==> DependencyOk(s)
    ensures Bad(s) <==> Failing(s)
    ensures Over(s) <==> Terminal(s)
  {
  }

  lemma NeedsSpelledOut(role: Role, d: Role)
    ensures d in Needs(role) <==> DependsOn(role, d)
  {
  }

  lemma VerdictJudges(run: Run)
    ensures Judged(run.stages, run.bundle, Verdict(run))
  {
    forall r: Role
      ensures Bad(run.stages[r].state) <==> Failing(run.stages[r].state)
      ensures run.stages[r].state in {Succeeded, NotApplicable} <==>
                run.stages[r].state.Succeeded? || run.stages[r].state.NotApplicable?
    {
    }
  }

  lemma FinalizeSettles(run: Run, moved: Run, now: int)
    requires moved.validUntil == run.validUntil && moved.coreWaits == run.coreWaits
    requires moved.error == run.error && moved.completedAt == run.completedAt
    ensures var after := Finalize(moved, now);
            && after.stages == moved.stages && after.bundle == moved.bundle
            && Settles(run, after, now)
            && ((exists r: Role :: !Over(moved.stages[r].state)) ==> after == moved)
  {
    hide Judged, Verdict;
    forall r: Role
      ensures Over(moved.stages[r].state) <==> Terminal(moved.stages[r].state)
    {
      StatesSpelledOut(moved.stages[r].state);
    }
    if AllTerminal(moved) {
      VerdictJudges(moved);
    }
  }

  // ---------------------------------------------------------------- a new run

  ghost predicate Fresh(run: Run, validUntil: int, timeouts: map<Role, nat>, now: int) {
    && run.state == Created && run.validUntil == validUntil && run.bundle == None && run.error == None
    && run.completedAt == None && !run.coreWaits
    && forall r: Role ::
         run.stages[r] == Stage(Pending, None, None, 0, 0,
                                if r in {IntelCollector, EvidenceVerifier, CandidateAuditor} then 2 else 1,
                                false, now, if r in timeouts then timeouts[r] else 10, None, None)
  }

  // ---------------------------------------------------------------- a sweep

  predicate OutOfLease(stage: Stage, now: int) {
    stage.state == Running && stage.leaseExpiresAt.Some? && stage.leaseExpiresAt.value <= now
  }

  /**
   * A stage whose lease ran out is given back while attempts are left and nothing was
   * invoked, and timed out otherwise.
   */
  predicate SweptStage(before: Stage, after: Stage, now: int) {
    if !OutOfLease(before, now) then after == before
    else if !before.invoked && before.attemptCount < before.maxAttempts then
      after == before.(state := Pending, owner := None, leaseExpiresAt := None, error := Some(LeaseExpiredRetry),
                       availableAt := now, timeoutAt := None)
    else
      after == before.(state := TimedOut, owner := None, leaseExpiresAt := None,
                       error := Some(if before.invoked then InvocationOutcomeUnknown else AttemptsExhausted))
  }

  ghost predicate SweptRun(run: Run, after: Run, now: int) {
    && after.bundle == run.bundle
    && (forall r: Role :: SweptStage(run.stages[r], after.stages[r], now))
    && if exists r: Role :: OutOfLease(run.stages[r], now)
       then Settles(run, after, now) && ((exists r: Role :: !Over(after.stages[r].state)) ==> after.state == run.state)
       else after == run
  }

  lemma SweptStageMeans(stage: Stage, now: int)
    ensures SweptStage(stage, if Expired(stage, now) then Recovered(stage, now) else stage, now)
    ensures Expired(stage, now) <==> OutOfLease(stage, now)
  {
  }

  lemma SweepMeans(run: Run, now: int)
    ensures SweptRun(run, RecoverRun(run, now), now)
  {
    hide Finalize, SweptStage, Recovered, Expired, OutOfLease, Judged, Over;
    forall r: Role
      ensures Expired(run.stages[r], now) <==> OutOfLease(run.stages[r], now)
      ensures SweptStage(run.stages[r],
                         if Expired(run.stages[r], now) then Recovered(run.stages[r], now) else run.stages[r], now)
    {
      SweptStageMeans(run.stages[r], now);
    }
    RecoveredStages(run, now);
    if AnyExpired(run, now) {
      FinalizeSettles(run, Sweep(run, now), now);
    }
  }

  // ---------------------------------------------------------------- a claim

  predicate Reducer(role: Role) {
    role == CandidateAuditor || role == Core
  }

  predicate SomeBad(run: Run, role: Role) {
    exists d: Role :: d in Needs(role) && Bad(run.stages[d].state)
  }

  /** The claim loop acts on this stage and does not pass it over. */
  predicate Ready(run: Run, role: Role, now: int) {
    && !Decided(run.state) && run.stages[role].state == Pending && run.stages[role].availableAt <= now
    && if SomeBad(run, role) then !Reducer(role) || forall d: Role :: d in Needs(role) ==> Over(run.stages[d].state)
       else forall d: Role :: d in Needs(role) ==> Good(run.stages[d].state)
  }

  /**
   * The row of a stage the loop acted on. It fails over a failed dependency unless
   * it may reduce, goes stale after the run's time, and starts otherwise.
   */
  predicate ActedStage(run: Run, role: Role, worker: Worker, leaseSeconds: nat, now: int, after: Stage) {
    var before := run.stages[role];
    if SomeBad(run, role) && !Reducer(role) then
      after == before.(state := Failed, error := Some(DependencyFailed))
    else if run.validUntil <= now then
      after == before.(state := TimedOut, error := Some(StaleBeforeStart))
    else
      after == before.(state := Running, owner := Some(worker), leaseExpiresAt := Some(now + leaseSeconds),
                       fencingToken := before.fencingToken + 1, attemptCount := before.attemptCount + 1,
                       timeoutAt := Some(now + before.timeoutSeconds))
  }

  ghost predicate ActedRun(run: Run, role: Role, worker: Worker, leaseSeconds: nat, now: int, after: Run) {
    && after.bundle == run.bundle && Settles(run, after, now)
    && after.stages == run.stages[role := after.stages[role]]
    && ActedStage(run, role, worker, leaseSeconds, now, after.stages[role])
    && ((exists r: Role :: !Over(after.stages[r].state)) ==>
          after.state == if after.stages[role].state == Running && run.state == Created then Started else run.state)
  }

  lemma NeedsTheSame(run: Run, role: Role)
    ensures SomeBad(run, role) <==> exists d: Role :: DependsOn(role, d) && Failing(run.stages[d].state)
    ensures (forall d: Role :: d in Needs(role) ==> Over(run.stages[d].state)) <==>
              !exists d: Role :: DependsOn(role, d) && !Terminal(run.stages[d].state)
    ensures (forall d: Role :: d in Needs(role) ==> Good(run.stages[d].state)) <==>
              !exists d: Role :: DependsOn(role, d) && !DependencyOk(run.stages[d].state)
  {
    hide Needs, DependsOn, Good, Bad, Over, Failing, Terminal, DependencyOk;
    forall d: Role
      ensures d in Needs(role) <==> DependsOn(role, d)
      ensures Good(run.stages[d].state) <==> DependencyOk(run.stages[d].state)
      ensures Bad(run.stages[d].state) <==> Failing(run.stages[d].state)
      ensures Over(run.stages[d].state) <==> Terminal(run.stages[d].state)
    {
      NeedsSpelledOut(role, d);
      StatesSpelledOut(run.stages[d].state);
    }
  }

  lemma ReadyIsDecided(run: Run, role: Role, now: int)
    ensures Ready(run, role, now) <==> Decide(run, role, now) != Skip
    ensures SomeBad(run, role) <==> exists d: Role :: DependsOn(role, d) && Failing(run.stages[d].state)
  {
    hide SomeBad, Needs, DependsOn, Good, Over, Failing, Terminal, DependencyOk;
    NeedsTheSame(run, role);
  }

  lemma ActedMeans(run: Run, role: Role, worker: Worker, leaseSeconds: nat, now: int)
    requires Ready(run, role, now)
    ensures ActedStage(run, role, worker, leaseSeconds, now, Acted(run, role, worker, leaseSeconds, now))
    ensures Acted(run, role, worker, leaseSeconds, now).state == Running <==> Decide(run, role, now) == Start
  {
    hide Ready, SomeBad, DependsOn, Needs, Failing, Terminal, DependencyOk;
    ReadyIsDecided(run, role, now);
    ReadyIsPending(run, role, now);
  }

  lemma ReadyIsPending(run: Run, role: Role, now: int)
    requires Ready(run, role, now)
    ensures run.stages[role].state == Pending
  {
  }

  /** A run as acting leaves it, before it is looked at by finalization. */
  lemma ActIsFinalized(run: Run, role: Role, worker: Worker, leaseSeconds: nat, now: int)
    requires Decide(run, role, now) != Skip
    ensures var acted := Acted(run, role, worker, leaseSeconds, now);
            var moved := SetStage(run, role, acted);
            Act(run, role, worker, leaseSeconds, now) ==
              if Decide(run, role, now) == Start
              then moved.(state := if run.state == Created then Started else run.state)
              else Finalize(moved, now)
  {
    hide Finalize, Decide, Acted;
  }

  lemma StartMeans(run: Run, role: Role, stage: Stage, now: int)
    requires stage.state == Running
    ensures var after := SetStage(run, role, stage).(state := if run.state == Created then Started else run.state);
            Settles(run, after, now)
  {
    hide Judged;
    assert !Over(SetStage(run, role, stage).stages[role].state);
  }

  lemma ActMeans(run: Run, role: Role, worker: Worker, leaseSeconds: nat, now: int)
    requires Ready(run, role, now)
    ensures ActedRun(run, role, worker, leaseSeconds, now, Act(run, role, worker, leaseSeconds, now))
    ensures Act(run, role, worker, leaseSeconds, now).stages[role].state == Running <==>
              Decide(run, role, now) == Start
  {
    hide Finalize, Ready, SomeBad, Settles, ActedStage, Decide, Acted, AllTerminal, Act, Over;
    ReadyIsDecided(run, role, now);
    ActedMeans(run, role, worker, leaseSeconds, now);
    ActIsFinalized(run, role, worker, leaseSeconds, now);
    var stage := Acted(run, role, worker, leaseSeconds, now);
    if Decide(run, role, now) == Start {
      StartMeans(run, role, stage, now);
    } else {
      FinalizeSettles(run, SetStage(run, role, stage), now);
    }
  }

  // ---------------------------------------------------------------- an execution

  predicate InTime(stage: Stage, now: int) {
    stage.timeoutAt.None? || now < stage.timeoutAt.value
  }

  /** The row after an execution under its claim: an outcome in time is stored as it is. */
  predicate EndedStage(before: Stage, outcome: Outcome, now: int, after: Stage) {
    && after == before.(state := after.state, error := after.error, owner := None, leaseExpiresAt := None,
                        invoked := after.invoked)
    && (!InTime(before, now) ==>
          after.state == TimedOut && after.error == Some(StageTimeout) && after.invoked == before.invoked)
    && (InTime(before, now) ==> after.invoked == (before.invoked || outcome.invoked))
    && (InTime(before, now) && outcome.Stored? ==> after.state == outcome.state && after.error == before.error)
    && (InTime(before, now) && outcome.Raised? && outcome.timeout ==>
          after.state == TimedOut && after.error == Some(StageTimeout))
    && (InTime(before, now) && outcome.Raised? && !outcome.timeout ==>
          after.state == Failed && after.error == Some(StageFailed))
  }

  ghost predicate EndedRun(run: Run, role: Role, outcome: Outcome, now: int, after: Run) {
    && after.stages == run.stages[role := after.stages[role]]
    && EndedStage(run.stages[role], outcome, now, after.stages[role])
    && after.bundle == (if role == EvidenceVerifier && outcome.Stored? && InTime(run.stages[role], now)
                        then Some(outcome.bundle) else run.bundle)
    && Settles(run, after, now)
    && ((exists r: Role :: !Over(after.stages[r].state)) ==> after.state == run.state)
  }

  lemma ExecutedMeans(stage: Stage, outcome: Outcome, now: int)
    ensures EndedStage(stage, outcome, now, Executed(stage, outcome, now))
    ensures Late(stage, now) <==> !InTime(stage, now)
  {
  }

  lemma ExecuteMeans(run: Run, role: Role, outcome: Outcome, now: int)
    ensures EndedRun(run, role, outcome, now, Execute(run, role, outcome, now))
  {
    hide Finalize, Judged, Executed, EndedStage, Late, InTime;
    var stage := run.stages[role];
    ExecutedMeans(stage, outcome, now);
    var done := SetStage(run, role, Executed(stage, outcome, now));
    var wrote := role == EvidenceVerifier && outcome.Stored? && !Late(stage, now);
    FinalizeSettles(run, if wrote then done.(bundle := Some(outcome.bundle)) else done, now);
  }

  // ---------------------------------------------------------------- the claim call

  /** The claim call acts on the first stage that is ready, and on nothing else. */
  ghost predicate ClaimsFirst(swept: Db, next: Db, worker: Worker, leaseSeconds: nat, now: int, claim: Option<Claim>)
    requires InQueue(swept)
  {
    || (next == swept && claim == None
        && forall j :: 0 <= j < |swept.queue| ==> !Ready(swept.runs[swept.queue[j].run], swept.queue[j].role, now))
    || (exists k: nat {:trigger ClaimsAt(swept, next, k, worker, leaseSeconds, now, claim)} ::
          ClaimsAt(swept, next, k, worker, leaseSeconds, now, claim))
  }

  ghost predicate ClaimsAt(swept: Db, next: Db, k: nat, worker: Worker, leaseSeconds: nat, now: int,
                           claim: Option<Claim>)
    requires InQueue(swept)
  {
    && k < |swept.queue| && |next.runs| == |swept.runs|
    && (forall j :: 0 <= j < k ==> !Ready(swept.runs[swept.queue[j].run], swept.queue[j].role, now))
    && var Ticket(r, role) := swept.queue[k];
       && Ready(swept.runs[r], role, now)
       && ActedRun(swept.runs[r], role, worker, leaseSeconds, now, next.runs[r])
       && next == swept.(runs := swept.runs[r := next.runs[r]])
       && claim == ClaimOn(next, r, role)
  }

  lemma SweepAllMeans(db: Db, now: int)
    ensures SweepAll(db, now).queue == db.queue && |SweepAll(db, now).runs| == |db.runs|
    ensures forall r :: 0 <= r < |db.runs| ==> SweptRun(db.runs[r], SweepAll(db, now).runs[r], now)
  {
    hide SweptRun, RecoverRun;
    forall r | 0 <= r < |db.runs|
      ensures SweptRun(db.runs[r], SweepAll(db, now).runs[r], now)
    {
      SweepMeans(db.runs[r], now);
    }
  }

  lemma ReadyIsAction(db: Db, j: nat, now: int)
    requires InQueue(db) && j < |db.queue|
    ensures Ready(db.runs[db.queue[j].run], db.queue[j].role, now) <==> ActionAt(db, j, now) != Skip
  {
    hide Ready, Decide;
    ReadyIsDecided(db.runs[db.queue[j].run], db.queue[j].role, now);
  }

  lemma ClaimMeans(db: Db, next: Db, worker: Worker, leaseSeconds: nat, now: int, claim: Option<Claim>)
    requires InQueue(db) && ClaimStep(db, next, worker, leaseSeconds, now, claim)
    ensures InQueue(SweepAll(db, now)) && ClaimsFirst(SweepAll(db, now), next, worker, leaseSeconds, now, claim)
  {
    hide Ready, ActedRun, Act, Decide, RecoverRun, SweepAll;
    SweepAllMeans(db, now);
    var swept := SweepAll(db, now);
    assert InQueue(swept);
    forall j | 0 <= j < |swept.queue|
      ensures Ready(swept.runs[swept.queue[j].run], swept.queue[j].role, now) <==> ActionAt(swept, j, now) != Skip
    {
      ReadyIsAction(swept, j, now);
    }
    if !NothingActs(swept, now) {
      var k: nat :|
        && FirstActing(swept, k, now) && next == ActAt(swept, k, worker, leaseSeconds, now)
        && claim == ClaimAt(swept, k, now);
      ActAtMeans(swept, k, worker, leaseSeconds, now);
      assert ClaimsAt(swept, next, k, worker, leaseSeconds, now, claim);
    }
  }

  lemma ActAtMeans(swept: Db, k: nat, worker: Worker, leaseSeconds: nat, now: int)
    requires InQueue(swept) && k < |swept.queue|
    requires var Ticket(r, role) := swept.queue[k]; Ready(swept.runs[r], role, now)
    ensures var Ticket(r, role) := swept.queue[k];
            var next := ActAt(swept, k, worker, leaseSeconds, now);
            && |next.runs| == |swept.runs|
            && next == swept.(runs := swept.runs[r := next.runs[r]])
            && ActedRun(swept.runs[r], role, worker, leaseSeconds, now, next.runs[r])
            && ClaimAt(swept, k, now) == ClaimOn(next, r, role)
  {
    hide Ready, ActedStage, Settles, Act, Decide;
    var Ticket(r, role) := swept.queue[k];
    ActMeans(swept.runs[r], role, worker, leaseSeconds, now);
    StartedTokenMeans(swept.runs[r], role, worker, leaseSeconds, now);
  }

  lemma StartedTokenMeans(run: Run, role: Role, worker: Worker, leaseSeconds: nat, now: int)
    requires Ready(run, role, now)
    ensures var after := Act(run, role, worker, leaseSeconds, now).stages[role];
            after.state == Running ==> after.fencingToken == run.stages[role].fencingToken + 1
  {
    hide Ready, SomeBad, Settles, Act;
    ReadyIsPending(run, role, now);
    ActMeans(run, role, worker, leaseSeconds, now);
  }

  // ---------------------------------------------------------------- where a stage's result comes from

  /** The statuses that only an outcome can bring. */
  predicate Chosen(s: StageState) {
    s in {Succeeded, NotApplicable, InsufficientData, Conflicted, InvalidOutput}
  }

  /** The call executed the stage under its claim with this token, and brought s in time. */
  predicate Brings(db: Db, op: Op, r: nat, role: Role, s: StageState, token: nat) {
    && op.ExecuteOp? && op.stored && op.claim == Claim(r, role, token) && r < |db.runs|
    && op.outcome.Stored? && op.outcome.state == s && InTime(db.runs[r].stages[role], op.now)
  }

  predicate Shows(db: Db, r: nat, role: Role, s: StageState, token: nat) {
    && r < |db.runs|
    && db.runs[r].stages[role].state == s && db.runs[r].stages[role].fencingToken == token
  }

  lemma ChosenIsOver(s: StageState)
    requires Chosen(s)
    ensures Over(s) && Terminal(s)
  {
  }

  lemma ShownStays(db: Db, op: Op, next: Db, r: nat, role: Role, s: StageState, token: nat)
    requires DbInv(db) && Next(db, op, next) && Chosen(s) && Shows(db, r, role, s, token)
    ensures Shows(next, r, role, s, token)
  {
    hide RunInv, Next, Terminal;
    ChosenIsOver(s);
    NextKeeps(db, op, next);
    assert Advances(db.runs[r], next.runs[r]);
    assert StageAdvances(db.runs[r].stages[role], next.runs[r].stages[role]);
  }

  lemma SweepChoosesNothing(run: Run, after: Run, now: int, role: Role)
    requires SweptRun(run, after, now) && Chosen(after.stages[role].state)
    ensures after.stages[role] == run.stages[role]
  {
    assert SweptStage(run.stages[role], after.stages[role], now);
  }

  /** A claim call leaves a swept row as it is, or acts on it. */
  lemma ClaimedRow(swept: Db, next: Db, worker: Worker, leaseSeconds: nat, now: int, claim: Option<Claim>, r: nat,
                   role: Role)
    requires InQueue(swept) && ClaimsFirst(swept, next, worker, leaseSeconds, now, claim) && r < |next.runs|
    ensures r < |swept.runs|
    ensures next.runs[r].stages[role] == swept.runs[r].stages[role]
            || ActedStage(swept.runs[r], role, worker, leaseSeconds, now, next.runs[r].stages[role])
  {
    hide Ready, Settles, ActedStage;
  }

  lemma ClaimChoosesNothing(db: Db, op: Op, next: Db, r: nat, role: Role)
    requires DbInv(db) && op.ClaimOp? && Next(db, op, next) && r < |next.runs|
             && Chosen(next.runs[r].stages[role].state)
    ensures r < |db.runs| && next.runs[r].stages[role] == db.runs[r].stages[role]
  {
    hide RunInv, SweptRun, Chosen, ClaimStep, SweepAll, ClaimsFirst, ActedStage, Fifo;
    ClaimMeans(db, next, op.worker, op.leaseSeconds, op.now, op.result);
    SweepAllMeans(db, op.now);
    var swept := SweepAll(db, op.now);
    ClaimedRow(swept, next, op.worker, op.leaseSeconds, op.now, op.result, r, role);
    if next.runs[r].stages[role] != swept.runs[r].stages[role] {
      ActChoosesNothing(swept.runs[r], role, op.worker, op.leaseSeconds, op.now, next.runs[r].stages[role]);
    }
    SweepChoosesNothing(db.runs[r], swept.runs[r], op.now, role);
  }

  lemma ActChoosesNothing(run: Run, role: Role, worker: Worker, leaseSeconds: nat, now: int, after: Stage)
    requires ActedStage(run, role, worker, leaseSeconds, now, after)
    ensures !Chosen(after.state)
  {
  }

  lemma ExecutionChooses(db: Db, op: Op, next: Db, r: nat, role: Role, s: StageState, token: nat)
    requires DbInv(db) && op.ExecuteOp? && Next(db, op, next) && Chosen(s)
    requires Shows(next, r, role, s, token) && !Shows(db, r, role, s, token)
    ensures Brings(db, op, r, role, s, token)
  {
    hide RunInv, Execute, Settles;
    if op.stored {
      ExecuteMeans(db.runs[op.claim.run], op.claim.role, op.outcome, op.now);
    }
  }

  lemma NewRunShowsNothing(db: Db, op: Op, next: Db, r: nat, role: Role)
    requires op.CreateOp? && InQueue(db) && Next(db, op, next) && r < |next.runs|
    ensures r < |db.runs| ==> next.runs[r] == db.runs[r]
    ensures r >= |db.runs| ==> next.runs[r].stages[role].state == Pending
  {
  }

  lemma NewlyShown(db: Db, op: Op, next: Db, r: nat, role: Role, s: StageState, token: nat)
    requires DbInv(db) && Next(db, op, next) && Chosen(s)
    requires Shows(next, r, role, s, token) && !Shows(db, r, role, s, token)
    ensures Brings(db, op, r, role, s, token)
  {
    hide RunInv, Execute, RecoverRun, ClaimStep, Chosen, CreateRun, Brings;
    match op
    case CreateOp(_, _, _) =>
      NewRunShowsNothing(db, op, next, r, role);
      PendingIsNotChosen();
    case RecoverOp(now) =>
      SweepAllMeans(db, now);
      SweepChoosesNothing(db.runs[r], next.runs[r], now, role);
    case ClaimOp(_, _, _, _) =>
      ClaimChoosesNothing(db, op, next, r, role);
    case ExecuteOp(_, _, _, _, _) =>
      ExecutionChooses(db, op, next, r, role, s, token);
  }

  /** One call more: a chosen status is there exactly if it was before or this call brings it. */
  lemma CallBrings(db: Db, op: Op, next: Db, r: nat, role: Role, s: StageState, token: nat)
    requires DbInv(db) && Next(db, op, next) && Chosen(s)
    ensures Shows(next, r, role, s, token) <==> Shows(db, r, role, s, token) || Brings(db, op, r, role, s, token)
  {
    hide RunInv, Execute, RecoverRun, ClaimStep, Chosen, CreateRun, Settles;
    if Shows(db, r, role, s, token) {
      ShownStays(db, op, next, r, role, s, token);
    } else if Brings(db, op, r, role, s, token) {
      ExecuteMeans(db.runs[r], role, op.outcome, op.now);
    } else if Shows(next, r, role, s, token) {
      NewlyShown(db, op, next, r, role, s, token);
    }
  }

  lemma PendingIsNotChosen()
    ensures !Chosen(Pending)
  {
  }

  /**
   * In every run of calls a stage shows a status that only an outcome can bring
   * exactly if the execution under the claim with its token brought it in time.
   */
  lemma {:induction false} BroughtExactly(dbs: seq<Db>, ops: seq<Op>, j: nat, r: nat, role: Role, s: StageState,
                                          token: nat)
    requires Trace(dbs, ops) && dbs[0] == EMPTY && j < |dbs| && Chosen(s)
    ensures Shows(dbs[j], r, role, s, token) <==>
              exists i :: 0 <= i < j && Brings(dbs[i], ops[i], r, role, s, token)
  {
    hide DbInv, Next, DbAdvances, Shows, Brings, Chosen;
    if j == 0 {
      NothingShown(r, role, s, token);
    } else {
      BroughtExactly(dbs, ops, j - 1, r, role, s, token);
      CallAt(dbs, ops, j - 1);
      CallBrings(dbs[j - 1], ops[j - 1], dbs[j], r, role, s, token);
    }
  }

  lemma NothingShown(r: nat, role: Role, s: StageState, token: nat)
    ensures !Shows(EMPTY, r, role, s, token)
  {
  }

  // ---------------------------------------------------------------- the evidence bundle

  /** The call executed the verifier in time and it stored this bundle. */
  predicate BringsBundle(db: Db, op: Op, r: nat, bundle: Bundle) {
    && op.ExecuteOp? && op.stored && op.claim.run == r && op.claim.role == EvidenceVerifier && r < |db.runs|
    && op.outcome.Stored? && op.outcome.bundle == bundle && InTime(db.runs[r].stages[EvidenceVerifier], op.now)
  }

  predicate HasBundle(db: Db, r: nat, bundle: Bundle) {
    r < |db.runs| && db.runs[r].bundle == Some(bundle)
  }

  lemma BundleKept(db: Db, op: Op, next: Db, r: nat)
    requires DbInv(db) && Next(db, op, next) && (op.RecoverOp? || op.ClaimOp?) && r < |db.runs|
    ensures r < |next.runs| && next.runs[r].bundle == db.runs[r].bundle
  {
    hide RunInv, Ready, ActedStage, Settles, ClaimStep, SweptStage, RecoverRun;
    SweepAllMeans(db, op.now);
    if op.ClaimOp? {
      ClaimMeans(db, next, op.worker, op.leaseSeconds, op.now, op.result);
    }
  }

  lemma CallBringsBundle(db: Db, op: Op, next: Db, r: nat, bundle: Bundle)
    requires DbInv(db) && Next(db, op, next)
    ensures HasBundle(next, r, bundle) <==> HasBundle(db, r, bundle) || BringsBundle(db, op, r, bundle)
  {
    hide Execute, RecoverRun, ClaimStep, Settles, EndedStage, Ordered, Verdict, StageInv;
    match op
    case CreateOp(_, _, _) =>
    case RecoverOp(_) =>
      if r < |db.runs| {
        BundleKept(db, op, next, r);
      }
    case ClaimOp(_, _, _, _) =>
      if r < |db.runs| {
        BundleKept(db, op, next, r);
      } else {
        SweepAllMeans(db, op.now);
        ClaimMeans(db, next, op.worker, op.leaseSeconds, op.now, op.result);
      }
    case ExecuteOp(claim, _, outcome, now, stored) =>
      if stored {
        ExecuteMeans(db.runs[claim.run], claim.role, outcome, now);
      }
  }

  /** In every run of calls an agent run has the bundle that the one stored verification in time brought. */
  lemma {:induction false} BundleBroughtExactly(dbs: seq<Db>, ops: seq<Op>, j: nat, r: nat, bundle: Bundle)
    requires Trace(dbs, ops) && dbs[0] == EMPTY && j < |dbs|
    ensures HasBundle(dbs[j], r, bundle) <==> exists i :: 0 <= i < j && BringsBundle(dbs[i], ops[i], r, bundle)
  {
    hide DbInv, Next, DbAdvances, BringsBundle;
    if j > 0 {
      BundleBroughtExactly(dbs, ops, j - 1, r, bundle);
      CallAt(dbs, ops, j - 1);
      CallBringsBundle(dbs[j - 1], ops[j - 1], dbs[j], r, bundle);
    }
  }

  /** An execution before call j brought the stage this status in time. */
  ghost predicate Brought(dbs: seq<Db>, ops: seq<Op>, j: nat, r: nat, role: Role, s: StageState)
    requires j <= |ops| < |dbs|
  {
    exists i, token: nat {:trigger Brings(dbs[i], ops[i], r, role, s, token)} ::
      0 <= i < j && Brings(dbs[i], ops[i], r, role, s, token)
  }

  lemma ShownIsBrought(dbs: seq<Db>, ops: seq<Op>, j: nat, r: nat, role: Role, s: StageState)
    requires Trace(dbs, ops) && dbs[0] == EMPTY && j < |dbs| && r < |dbs[j].runs| && Chosen(s)
    ensures dbs[j].runs[r].stages[role].state == s <==> Brought(dbs, ops, j, r, role, s)
  {
    hide DbInv, Next, DbAdvances, Brings, Chosen, InQueue;
    if dbs[j].runs[r].stages[role].state == s {
      BroughtExactly(dbs, ops, j, r, role, s, dbs[j].runs[r].stages[role].fencingToken);
    } else if Brought(dbs, ops, j, r, role, s) {
      var i, token: nat :| 0 <= i < j && Brings(dbs[i], ops[i], r, role, s, token);
      BroughtExactly(dbs, ops, j, r, role, s, token);
    }
  }

  /**
   * So a run is SUCCEEDED exactly if CORE succeeded, every other stage succeeded or
   * did not apply, and the evidence was verified, each as an execution in time
   * brought it.
   */
  lemma SuccessIsBrought(dbs: seq<Db>, ops: seq<Op>, j: nat, r: nat)
    requires Trace(dbs, ops) && dbs[0] == EMPTY && j < |dbs| && r < |dbs[j].runs|
    ensures dbs[j].runs[r].state == RunSucceeded <==>
              && Brought(dbs, ops, j, r, Core, Succeeded)
              && (exists i :: 0 <= i < j && BringsBundle(dbs[i], ops[i], r, Verified))
              && (forall role: Role ::
                    Brought(dbs, ops, j, r, role, Succeeded) || Brought(dbs, ops, j, r, role, NotApplicable))
  {
    hide DbInv, Next, DbAdvances, Brought, BringsBundle, InQueue;
    TraceKeepsInv(dbs, ops, j);
    BundleBroughtExactly(dbs, ops, j, r, Verified);
    forall role: Role
      ensures dbs[j].runs[r].stages[role].state == Succeeded <==> Brought(dbs, ops, j, r, role, Succeeded)
      ensures dbs[j].runs[r].stages[role].state == NotApplicable <==> Brought(dbs, ops, j, r, role, NotApplicable)
    {
      ShownIsBrought(dbs, ops, j, r, role, Succeeded);
      ShownIsBrought(dbs, ops, j, r, role, NotApplicable);
    }
    RunOfTrace(dbs[j], r);
    SucceededMeans(dbs[j].runs[r]);
  }

  lemma RunOfTrace(db: Db, r: nat)
    requires DbInv(db) && r < |db.runs|
    ensures RunInv(db.runs[r])
    ensures db.runs[r].stages[Core].state != NotApplicable
  {
    assert StageInv(Core, db.runs[r].stages[Core]);
  }

  // ---------------------------------------------------------------- what a started stage stands on

  /** A stage that was ever started stands on good results only, unless it may reduce; a cascade names a bad one. */
  predicate WellStarted(run: Run, role: Role) {
    var stage := run.stages[role];
    && (stage.attemptCount > 0 && !Reducer(role) ==> forall d: Role :: d in Needs(role) ==> Good(run.stages[d].state))
    && (stage.attemptCount > 0 ==> forall d: Role :: d in Needs(role) ==> Over(run.stages[d].state))
    && (stage.error == Some(DependencyFailed) ==>
          stage.state == Failed && stage.attemptCount == 0 && !Reducer(role) && SomeBad(run, role))
  }

  /** What is over in a run stays over as it is. */
  predicate KeepsOver(run: Run, after: Run) {
    forall r: Role :: Over(run.stages[r].state) ==> after.stages[r] == run.stages[r]
  }

  lemma WellStartedStays(run: Run, after: Run, role: Role)
    requires WellStarted(run, role) && KeepsOver(run, after)
    requires after.stages[role].attemptCount == run.stages[role].attemptCount
    requires after.stages[role].error == Some(DependencyFailed) ==> after.stages[role] == run.stages[role]
    ensures WellStarted(after, role)
  {
    forall d: Role
      ensures Good(run.stages[d].state) || Bad(run.stages[d].state) ==> after.stages[d] == run.stages[d]
    {
    }
  }

  lemma SweptIsWellStarted(run: Run, after: Run, now: int, role: Role)
    requires SweptRun(run, after, now) && WellStarted(run, role)
    ensures WellStarted(after, role)
  {
    hide WellStarted, Settles;
    assert SweptStage(run.stages[role], after.stages[role], now);
    forall r: Role | Over(run.stages[r].state)
      ensures after.stages[r] == run.stages[r]
    {
      assert SweptStage(run.stages[r], after.stages[r], now);
    }
    WellStartedStays(run, after, role);
  }

  lemma ActedIsWellStarted(run: Run, acted: Role, worker: Worker, leaseSeconds: nat, now: int, after: Run, role: Role)
    requires Ready(run, acted, now) && ActedRun(run, acted, worker, leaseSeconds, now, after)
    requires WellStarted(run, role) && WellStarted(run, acted)
    ensures WellStarted(after, role)
  {
    hide Settles, Ready;
    ReadyIsPending(run, acted, now);
    if role != acted {
      hide WellStarted;
      assert after.stages[role] == run.stages[role];
      WellStartedStays(run, after, role);
    } else {
      JustActed(run, role, worker, leaseSeconds, now, after);
    }
  }

  lemma JustActed(run: Run, role: Role, worker: Worker, leaseSeconds: nat, now: int, after: Run)
    requires Ready(run, role, now) && ActedStage(run, role, worker, leaseSeconds, now, after.stages[role])
    requires after.stages == run.stages[role := after.stages[role]]
    requires WellStarted(run, role)
    ensures WellStarted(after, role)
  {
    hide Good, Bad;
    forall d: Role | d in Needs(role)
      ensures d != role && after.stages[d] == run.stages[d]
      ensures Good(run.stages[d].state) ==> Over(run.stages[d].state) && !Bad(run.stages[d].state)
    {
      NeedsOthers(role);
      GoodIsOver();
    }
    hide Needs;
  }

  lemma NeedsOthers(role: Role)
    ensures role !in Needs(role)
  {
  }

  lemma GoodIsOver()
    ensures forall s: StageState :: Good(s) || Bad(s) ==> Over(s)
    ensures forall s: StageState :: !(Good(s) && Bad(s))
  {
  }

  lemma EndedIsWellStarted(run: Run, ended: Role, outcome: Outcome, now: int, after: Run, role: Role)
    requires run.stages[ended].state == Running && EndedRun(run, ended, outcome, now, after)
    requires WellStarted(run, role)
    ensures WellStarted(after, role)
  {
    hide Settles, WellStarted;
    assert role == ended || after.stages[role] == run.stages[role];
    if role == ended {
      RunningHasNoCascade(run, ended);
    }
    WellStartedStays(run, after, role);
  }

  lemma RunningHasNoCascade(run: Run, role: Role)
    requires WellStarted(run, role) && run.stages[role].state == Running
    ensures run.stages[role].error != Some(DependencyFailed)
  {
  }

  ghost predicate AllWellStarted(db: Db) {
    forall r, role: Role :: 0 <= r < |db.runs| ==> WellStarted(db.runs[r], role)
  }

  lemma FreshIsWellStarted(run: Run, validUntil: int, timeouts: map<Role, nat>, now: int, role: Role)
    requires run == FreshRun(validUntil, timeouts, now)
    ensures WellStarted(run, role)
  {
  }

  lemma ClaimKeepsWellStarted(db: Db, op: Op, next: Db, r: nat, role: Role)
    requires DbInv(db) && AllWellStarted(db) && op.ClaimOp? && Next(db, op, next) && r < |next.runs|
    ensures WellStarted(next.runs[r], role)
  {
    hide RunInv, WellStarted, ClaimStep, Ready, ActedRun, SweptRun, SweepAll;
    SweepAllMeans(db, op.now);
    ClaimMeans(db, next, op.worker, op.leaseSeconds, op.now, op.result);
    var swept := SweepAll(db, op.now);
    forall x: Role
      ensures WellStarted(swept.runs[r], x)
    {
      SweptIsWellStarted(db.runs[r], swept.runs[r], op.now, x);
    }
    if next != swept {
      var k: nat :| ClaimsAt(swept, next, k, op.worker, op.leaseSeconds, op.now, op.result);
      var Ticket(i, acted) := swept.queue[k];
      if i == r {
        ActedIsWellStarted(swept.runs[r], acted, op.worker, op.leaseSeconds, op.now, next.runs[r], role);
      }
    }
  }

  lemma CallKeepsWellStarted(db: Db, op: Op, next: Db)
    requires DbInv(db) && AllWellStarted(db) && Next(db, op, next)
    ensures AllWellStarted(next)
  {
    hide RunInv, WellStarted, ClaimStep, Execute, FreshRun, RecoverRun, EndedRun, SweptRun;
    forall r, role: Role | 0 <= r < |next.runs|
      ensures WellStarted(next.runs[r], role)
    {
      match op
      case CreateOp(validUntil, timeouts, now) =>
        FreshIsWellStarted(FreshRun(validUntil, timeouts, now), validUntil, timeouts, now, role);
      case RecoverOp(now) =>
        SweepAllMeans(db, now);
        SweptIsWellStarted(db.runs[r], next.runs[r], now, role);
      case ClaimOp(_, _, _, _) =>
        ClaimKeepsWellStarted(db, op, next, r, role);
      case ExecuteOp(claim, _, outcome, now, stored) =>
        if stored && claim.run == r {
          ExecuteMeans(db.runs[r], claim.role, outcome, now);
          EndedIsWellStarted(db.runs[r], claim.role, outcome, now, next.runs[r], role);
        }
    }
  }

  /**
   * In every run of calls a stage that was ever started had all its dependencies
   * succeed, not apply, lack data or conflict; only the auditor and CORE may start
   * over failed ones, once all are over. Whatever fails for a failed dependency was
   * never started and has one.
   */
  lemma {:induction false} StartedOnGoodResults(dbs: seq<Db>, ops: seq<Op>, j: nat)
    requires Trace(dbs, ops) && dbs[0] == EMPTY && j < |dbs|
    ensures AllWellStarted(dbs[j])
  {
    hide DbInv, Next, DbAdvances, WellStarted, InQueue;
    if j > 0 {
      StartedOnGoodResults(dbs, ops, j - 1);
      CallAt(dbs, ops, j - 1);
      CallKeepsWellStarted(dbs[j - 1], ops[j - 1], dbs[j]);
    }
  }
}
