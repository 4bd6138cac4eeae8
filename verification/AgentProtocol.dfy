/**
 * Fencing, the bound on the work of a run and termination, over every
 * interleaving of the worker calls.
 */
module AgentProtocol {
  import opened Common
  import opened AgentDag
  import opened AgentWorker

  function StageOf(db: Db, claim: Claim): Stage
    requires claim.run < |db.runs|
  {
    db.runs[claim.run].stages[claim.role]
  }

  // ---------------------------------------------------------------- fencing

  /** The stage has moved past this claim: reclaimed under a newer token, or no longer running. */
  ghost predicate Dead(db: Db, claim: Claim) {
    && claim.run < |db.runs|
    && (StageOf(db, claim).fencingToken > claim.token
        || (StageOf(db, claim).fencingToken == claim.token && StageOf(db, claim).state != Running))
  }

  /** An old token never writes again: once its claim is dead every later execution with it changes nothing. */
  lemma DeadClaimNeverStores(dbs: seq<Db>, ops: seq<Op>, i: nat, j: nat)
    requires Trace(dbs, ops) && i <= j < |ops|
    requires ops[j].ExecuteOp? && Dead(dbs[i], ops[j].claim)
    ensures !ops[j].stored && dbs[j + 1] == dbs[j]
  {
    var claim := ops[j].claim;
    StageOnlyAdvances(dbs, ops, i, j, claim.run, claim.role);
    assert Next(dbs[j], ops[j], dbs[j + 1]);
  }

  /** What a successful claim call leaves behind. */
  lemma ClaimGrants(db: Db, next: Db, worker: Worker, leaseSeconds: nat, now: int, claim: Claim)
    requires DbInv(db) && ClaimStep(db, next, worker, leaseSeconds, now, Some(claim))
    ensures claim.run < |db.runs| == |next.runs|
    ensures StageOf(db, claim).fencingToken + 1 == claim.token
    ensures HoldsClaim(StageOf(next, claim), worker, claim.token)
  {
    hide RunInv, Measure, Advances, RecoverRun, ClaimStep, NothingActs;
    var r, role := ClaimMovesOneStage(db, next, worker, leaseSeconds, now, Some(claim));
    RecoveredStages(db.runs[r], now);
  }

  /** The stage ran before the call and was not touched by it. */
  ghost predicate Untouched(db: Db, next: Db, r: nat, role: Role) {
    r < |db.runs| && r < |next.runs| && next.runs[r].stages[role] == db.runs[r].stages[role]
  }

  ghost predicate Granted(op: Op, worker: Worker, claim: Claim) {
    op.ClaimOp? && op.worker == worker && op.result == Some(claim)
  }

  /** The stage is held by the worker the call handed its current token to. */
  ghost predicate JustGranted(op: Op, next: Db, r: nat, role: Role) {
    && r < |next.runs|
    && var stage := next.runs[r].stages[role];
    && stage.owner.Some?
    && Granted(op, stage.owner.value, Claim(r, role, stage.fencingToken))
  }

  lemma OtherRowsKept(swept: Db, next: Db, i: nat, moved: Role, r: nat, role: Role)
    requires OneStageMoved(swept, next, i, moved) && r < |next.runs| && (r, role) != (i, moved)
    ensures next.runs[r].stages[role] == swept.runs[r].stages[role]
  {
  }

  lemma SweepStopsOrKeeps(run: Run, now: int, role: Role)
    requires RecoverRun(run, now).stages[role].state == Running
    ensures RecoverRun(run, now).stages[role] == run.stages[role]
  {
    RecoveredStages(run, now);
  }

  lemma RunningAfterClaim(db: Db, op: Op, next: Db, r: nat, role: Role)
    requires DbInv(db) && op.ClaimOp? && ClaimStep(db, next, op.worker, op.leaseSeconds, op.now, op.result)
    requires r < |next.runs| && next.runs[r].stages[role].state == Running
    ensures Untouched(db, next, r, role) || JustGranted(op, next, r, role)
  {
    hide RunInv, Progress, RecoverRun, ClaimStep, NothingActs, DbInv, InQueue;
    var i, moved := ClaimMovesOneStage(db, next, op.worker, op.leaseSeconds, op.now, op.result);
    var swept := SweepAll(db, op.now);
    if next == swept {
      SweepStopsOrKeeps(db.runs[r], op.now, role);
    } else if (r, role) != (i, moved) {
      OtherRowsKept(swept, next, i, moved, r, role);
      SweepStopsOrKeeps(db.runs[r], op.now, role);
    }
  }

  /** A stage that runs after a call either ran before it, untouched, or was just claimed by that call. */
  lemma RunningStageOrigin(db: Db, op: Op, next: Db, r: nat, role: Role)
    requires DbInv(db) && Next(db, op, next) && r < |next.runs| && next.runs[r].stages[role].state == Running
    ensures Untouched(db, next, r, role) || JustGranted(op, next, r, role)
  {
    hide RunInv, Measure, Advances, RecoverRun, ClaimStep, Execute;
    match op
    case CreateOp(_, _, _) =>
    case RecoverOp(now) => SweepStopsOrKeeps(db.runs[r], now, role);
    case ClaimOp(_, _, _, _) => RunningAfterClaim(db, op, next, r, role);
    case ExecuteOp(claim, worker, outcome, now, stored) =>
      if stored {
        ExecuteKeepsInv(db.runs[claim.run], claim.role, worker, claim.token, outcome, now);
      }
  }

  /** Every running stage is held by the worker some earlier claim call handed it to. */
  lemma {:induction false} RunningWasGranted(dbs: seq<Db>, ops: seq<Op>, j: nat, r: nat, role: Role) returns (i: nat)
    requires Trace(dbs, ops) && dbs[0] == EMPTY && j < |dbs|
    requires r < |dbs[j].runs| && dbs[j].runs[r].stages[role].state == Running
    ensures i < j && JustGranted(ops[i], dbs[j], r, role)
  {
    hide DbInv, Next, DbAdvances;
    CallAt(dbs, ops, j - 1);
    RunningStageOrigin(dbs[j - 1], ops[j - 1], dbs[j], r, role);
    if Untouched(dbs[j - 1], dbs[j], r, role) {
      i := RunningWasGranted(dbs, ops, j - 1, r, role);
    } else {
      i := j - 1;
    }
  }

  /** From a claim on, the stage never shows a token below the granted one. */
  lemma TokenKept(dbs: seq<Db>, ops: seq<Op>, i: nat, j: nat)
    requires Trace(dbs, ops) && i < j < |dbs| && ops[i].ClaimOp? && ops[i].result.Some?
    ensures ops[i].result.value.run < |dbs[j].runs|
    ensures ops[i].result.value.token <= StageOf(dbs[j], ops[i].result.value).fencingToken
  {
    var claim := ops[i].result.value;
    CallAt(dbs, ops, i);
    ClaimGrants(dbs[i], dbs[i + 1], ops[i].worker, ops[i].leaseSeconds, ops[i].now, claim);
    StageOnlyAdvances(dbs, ops, i + 1, j, claim.run, claim.role);
  }

  /** Each claim of a stage carries a strictly larger token than every claim of it before. */
  lemma TokensIncrease(dbs: seq<Db>, ops: seq<Op>, i: nat, j: nat)
    requires Trace(dbs, ops) && i < j < |ops|
    requires ops[i].ClaimOp? && ops[i].result.Some? && ops[j].ClaimOp? && ops[j].result.Some?
    requires ops[i].result.value.run == ops[j].result.value.run && ops[i].result.value.role == ops[j].result.value.role
    ensures ops[i].result.value.token < ops[j].result.value.token
  {
    TokenKept(dbs, ops, i, j);
    CallAt(dbs, ops, j);
    ClaimGrants(dbs[j], dbs[j + 1], ops[j].worker, ops[j].leaseSeconds, ops[j].now, ops[j].result.value);
  }

  /** A result is stored only by the worker the latest claim of the stage was granted to. */
  lemma OnlyLatestClaimStores(dbs: seq<Db>, ops: seq<Op>, j: nat) returns (i: nat)
    requires Trace(dbs, ops) && dbs[0] == EMPTY && j < |ops| && ops[j].ExecuteOp? && ops[j].stored
    ensures i < j && Granted(ops[i], ops[j].worker, ops[j].claim)
    ensures forall m :: i < m < j && ops[m].ClaimOp? && ops[m].result.Some? ==>
              ops[m].result.value.run != ops[j].claim.run || ops[m].result.value.role != ops[j].claim.role
  {
    var claim := ops[j].claim;
    assert Next(dbs[j], ops[j], dbs[j + 1]);
    i := RunningWasGranted(dbs, ops, j, claim.run, claim.role);
    forall m | i < m < j && ops[m].ClaimOp? && ops[m].result.Some?
      ensures ops[m].result.value.run != claim.run || ops[m].result.value.role != claim.role
    {
      var other := ops[m].result.value;
      if other.run == claim.run && other.role == claim.role {
        TokensIncrease(dbs, ops, i, m);
        TokenKept(dbs, ops, m, j);
      }
    }
  }

  /** Storing takes a row that runs under the claim and leaves it terminal. */
  lemma StoringEndsTheStage(dbs: seq<Db>, ops: seq<Op>, i: nat)
    requires Trace(dbs, ops) && i < |ops| && ops[i].ExecuteOp? && ops[i].stored
    ensures var claim := ops[i].claim;
            && claim.run < |dbs[i].runs| && claim.run < |dbs[i + 1].runs|
            && HoldsClaim(StageOf(dbs[i], claim), ops[i].worker, claim.token)
            && Terminal(StageOf(dbs[i + 1], claim).state)
  {
    hide RunInv, Measure, Execute;
    var op := ops[i];
    CallAt(dbs, ops, i);
    ExecuteKeepsInv(dbs[i].runs[op.claim.run], op.claim.role, op.worker, op.claim.token, op.outcome, op.now);
  }

  /** The result of a stage is stored at most once. */
  lemma StoredOnce(dbs: seq<Db>, ops: seq<Op>, i: nat, j: nat)
    requires Trace(dbs, ops) && i < j < |ops|
    requires ops[i].ExecuteOp? && ops[i].stored && ops[j].ExecuteOp?
    requires ops[i].claim.run == ops[j].claim.run && ops[i].claim.role == ops[j].claim.role
    ensures !ops[j].stored
  {
    var claim := ops[i].claim;
    StoringEndsTheStage(dbs, ops, i);
    TerminalStays(dbs, ops, i + 1, j, claim);
    assert StageOf(dbs[j], claim).state != Running;
    if ops[j].stored {
      StoringEndsTheStage(dbs, ops, j);
    }
  }

  lemma TerminalStays(dbs: seq<Db>, ops: seq<Op>, i: nat, j: nat, claim: Claim)
    requires Trace(dbs, ops) && i <= j < |dbs| && claim.run < |dbs[i].runs| && Terminal(StageOf(dbs[i], claim).state)
    ensures claim.run < |dbs[j].runs| && StageOf(dbs[j], claim) == StageOf(dbs[i], claim)
  {
    hide Trace;
    StageOnlyAdvances(dbs, ops, i, j, claim.run, claim.role);
  }

  // ---------------------------------------------------------------- the work of one run

  /** The stage transitions one call makes in run r. */
  function RunWork(db: Db, op: Op, next: Db, r: nat): nat
    requires |db.runs| <= |next.runs|
  {
    if r >= |db.runs| then 0 else
      match op
      case CreateOp(_, _, _) => 0
      case RecoverOp(now) => ExpiredCount(db.runs[r], now)
      case ClaimOp(_, _, now, _) =>
        ExpiredCount(db.runs[r], now) + if next.runs[r] != RecoverRun(db.runs[r], now) then 1 else 0
      case ExecuteOp(claim, _, _, _, stored) => if stored && claim.run == r then 1 else 0
  }

  function Budget(db: Db, r: nat): int {
    if r < |db.runs| then Measure(db.runs[r]) else 22
  }

  lemma WorkSpendsBudget(db: Db, op: Op, next: Db, r: nat)
    requires DbInv(db) && Next(db, op, next) && |db.runs| <= |next.runs|
    ensures Budget(next, r) + RunWork(db, op, next, r) <= Budget(db, r)
  {
    hide Measure, RunInv, Advances, Act, Execute, RecoverRun, ExpiredCount;
    match op
    case CreateOp(validUntil, timeouts, now) =>
      FreshRunInv(validUntil, timeouts, now);
    case RecoverOp(now) =>
      if r < |db.runs| {
        RecoverLosesWeight(db.runs[r], now);
      }
    case ClaimOp(worker, leaseSeconds, now, result) =>
      if r < |db.runs| {
        RecoverLosesWeight(db.runs[r], now);
      }
      var i, role := ClaimMovesOneStage(db, next, worker, leaseSeconds, now, result);
    case ExecuteOp(claim, worker, outcome, now, stored) =>
      if stored {
        ExecuteKeepsInv(db.runs[claim.run], claim.role, worker, claim.token, outcome, now);
      }
  }

  lemma MeasureIsNatural(run: Run)
    requires RunInv(run)
    ensures Measure(run) >= 0
    ensures Measure(run) == 0 <==> Finished(run)
  {
    assert forall r: Role :: StageInv(r, run.stages[r]);
    CoreIsLast(run);
  }

  /** The transitions of run r in the first n calls. */
  ghost function TotalWork(dbs: seq<Db>, ops: seq<Op>, n: nat, r: nat): nat
    requires Trace(dbs, ops) && n <= |ops|
  {
    if n == 0 then 0
    else
      TraceAdvances(dbs, ops, n - 1, n);
      TotalWork(dbs, ops, n - 1, r) + RunWork(dbs[n - 1], ops[n - 1], dbs[n], r)
  }

  lemma {:induction false} WorkWithinBudget(dbs: seq<Db>, ops: seq<Op>, n: nat, r: nat)
    requires Trace(dbs, ops) && n <= |ops|
    ensures Budget(dbs[n], r) + TotalWork(dbs, ops, n, r) <= Budget(dbs[0], r)
  {
    hide Measure, RunInv, Next, RunWork, Budget;
    if n > 0 {
      WorkWithinBudget(dbs, ops, n - 1, r);
      CallAt(dbs, ops, n - 1);
      WorkSpendsBudget(dbs[n - 1], ops[n - 1], dbs[n], r);
    }
  }

  /** No run ever makes more than 22 stage transitions, whatever the workers do. */
  lemma AtMost22Transitions(dbs: seq<Db>, ops: seq<Op>, r: nat)
    requires Trace(dbs, ops) && dbs[0] == EMPTY
    ensures TotalWork(dbs, ops, |ops|, r) <= 22
  {
    WorkWithinBudget(dbs, ops, |ops|, r);
    TraceKeepsInv(dbs, ops, |ops|);
    if r < |dbs[|ops|].runs| {
      MeasureIsNatural(dbs[|ops|].runs[r]);
    }
  }

  // ---------------------------------------------------------------- termination

  function TotalMeasure(runs: seq<Run>): int {
    if runs == [] then 0 else Measure(runs[0]) + TotalMeasure(runs[1..])
  }

  lemma {:induction false} TotalMeasureDrops(runs: seq<Run>, next: seq<Run>, strict: bool)
    requires |next| == |runs|
    requires forall r :: 0 <= r < |runs| ==> Measure(next[r]) <= Measure(runs[r])
    requires strict ==> exists r :: 0 <= r < |runs| && Measure(next[r]) < Measure(runs[r])
    ensures TotalMeasure(next) <= TotalMeasure(runs)
    ensures strict ==> TotalMeasure(next) < TotalMeasure(runs)
  {
    hide Measure;
    if runs != [] {
      var rest := strict && Measure(next[0]) == Measure(runs[0]);
      if rest {
        var r :| 0 <= r < |runs| && Measure(next[r]) < Measure(runs[r]);
        assert next[1..][r - 1] == next[r] && runs[1..][r - 1] == runs[r];
      }
      TotalMeasureDrops(runs[1..], next[1..], rest);
    }
  }

  lemma {:induction false} TotalMeasureZero(runs: seq<Run>)
    requires forall r :: 0 <= r < |runs| ==> RunInv(runs[r])
    ensures TotalMeasure(runs) >= 0
    ensures TotalMeasure(runs) == 0 ==> forall r :: 0 <= r < |runs| ==> Finished(runs[r])
  {
    hide Measure, RunInv;
    if runs != [] {
      MeasureIsNatural(runs[0]);
      TotalMeasureZero(runs[1..]);
      assert forall r :: 1 <= r < |runs| ==> runs[r] == runs[1..][r - 1];
    }
  }

  /** The first c runs are finished. */
  ghost predicate FirstFinished(db: Db, c: nat) {
    forall r :: 0 <= r < c && r < |db.runs| ==> Finished(db.runs[r])
  }

  predicate LeaseOver(stage: Stage, now: int) {
    stage.leaseExpiresAt.Some? ==> stage.leaseExpiresAt.value <= now
  }

  /** Late enough that every stage of the first c runs is available and every lease on one has run out. */
  ghost predicate Ripe(db: Db, c: nat, now: int) {
    forall r: nat, role: Role :: r < c && r < |db.runs| ==>
      db.runs[r].stages[role].availableAt <= now && LeaseOver(db.runs[r].stages[role], now)
  }

  lemma TicketActs(db: Db, now: int, r: nat, role: Role)
    requires DbInv(db) && r < |db.runs| && NothingActs(db, now)
    ensures Decide(db.runs[r], role, now) == Skip
  {
    hide Decide, RunInv;
    assert Ticket(r, role) in db.queue;
    var k :| 0 <= k < |db.queue| && db.queue[k] == Ticket(r, role);
    assert ActionAt(db, k, now) == Skip;
  }

  /** After a sweep an unfinished run that does not wait has a stage the claim loop acts on. */
  lemma SweptRunActsUnlessWaiting(run: Run, now: int) returns (role: Role)
    requires RunInv(run)
    requires !Finished(RecoverRun(run, now)) && !Waiting(RecoverRun(run, now), now)
    ensures Decide(RecoverRun(run, now), role, now) != Skip
  {
    hide Verdict, Decide, Finalize, Ordered, AllTerminal, RecoverRun, BundleInv;
    var swept := RecoverRun(run, now);
    RecoverKeepsInv(run, now);
    RecoveredStages(run, now);
    forall s: Role
      ensures swept.stages[s].state != Running
    {
      assert StageInv(s, run.stages[s]) && StageInv(s, swept.stages[s]);
    }
    role := SomeStageActs(swept, now);
  }

  lemma RipeRunDoesNotWait(run: Run, now: int)
    requires forall role: Role :: run.stages[role].availableAt <= now && LeaseOver(run.stages[role], now)
    ensures !Waiting(RecoverRun(run, now), now)
  {
    hide RecoverRun;
    RecoveredStages(run, now);
  }

  lemma SweptRunActs(db: Db, now: int, r: nat) returns (k: nat)
    requires DbInv(db) && r < |db.runs| && !Finished(RecoverRun(db.runs[r], now))
    requires Ripe(db, r + 1, now)
    ensures k < |db.queue| && db.queue[k].run == r && ActionAt(SweepAll(db, now), k, now) != Skip
  {
    hide Verdict, Decide, Finalize, RunInv, RecoverRun;
    RipeRunDoesNotWait(db.runs[r], now);
    var role := SweptRunActsUnlessWaiting(db.runs[r], now);
    assert Ticket(r, role) in db.queue;
    k :| 0 <= k < |db.queue| && db.queue[k] == Ticket(r, role);
  }

  /**
   * A claim call that only swept found every unfinished run waiting: for a worker
   * whose lease has not run out, or for a retried stage to become available.
   */
  lemma IdleClaimMeansWaiting(db: Db, op: Op, next: Db)
    requires DbInv(db) && Next(db, op, next) && op.ClaimOp? && next == SweepAll(db, op.now)
    ensures op.result == None
    ensures forall r :: 0 <= r < |next.runs| && !Finished(next.runs[r]) ==> Waiting(next.runs[r], op.now)
  {
    hide Verdict, Decide, RunInv, RecoverRun, Waiting, ClaimStep, Measure, ActionAt;
    var _, _ := ClaimMovesOneStage(db, next, op.worker, op.leaseSeconds, op.now, op.result);
    SweepKeeps(db, op.now);
    forall r | 0 <= r < |next.runs| && !Finished(next.runs[r]) && !Waiting(next.runs[r], op.now)
      ensures false
    {
      var role := SweptRunActsUnlessWaiting(db.runs[r], op.now);
      TicketActs(next, op.now, r, role);
    }
  }

  lemma CallsNeverAddWork(db: Db, op: Op, next: Db)
    requires DbInv(db) && Next(db, op, next)
    ensures |db.runs| <= |next.runs|
    ensures forall r :: 0 <= r < |db.runs| ==> Measure(next.runs[r]) <= Measure(db.runs[r])
  {
    hide Measure, RunInv, Next, RunWork;
    NextKeeps(db, op, next);
    forall r | 0 <= r < |db.runs|
      ensures Measure(next.runs[r]) <= Measure(db.runs[r])
    {
      WorkSpendsBudget(db, op, next, r);
    }
  }

  /** The claim loop reads earlier runs first, so it acts on one of them if any of them can be acted on. */
  lemma ClaimActsEarly(db: Db, next: Db, op: Op, j: nat)
    requires DbInv(db) && op.ClaimOp? && Next(db, op, next)
    requires j < |db.queue| && ActionAt(SweepAll(db, op.now), j, op.now) != Skip
    ensures |next.runs| == |db.runs|
    ensures exists i: nat ::
              i <= db.queue[j].run && i < |db.runs| && Measure(next.runs[i]) < Measure(RecoverRun(db.runs[i], op.now))
  {
    hide RunInv, Decide, Act, RecoverRun, Measure, Advances, Verdict, ActionAt;
    var swept := SweepAll(db, op.now);
    var k: nat :| FirstActing(swept, k, op.now) && next == ActAt(swept, k, op.worker, op.leaseSeconds, op.now);
    var i := swept.queue[k].run;
    ActionOf(swept, k, op.now);
    RecoverKeepsInv(db.runs[i], op.now);
    ActKeepsInv(swept.runs[i], swept.queue[k].role, op.worker, op.leaseSeconds, op.now);
    assert k <= j;
    assert i <= db.queue[j].run;
  }

  lemma ActionOf(db: Db, k: nat, now: int)
    requires InQueue(db) && k < |db.queue|
    ensures ActionAt(db, k, now) == Decide(db.runs[db.queue[k].run], db.queue[k].role, now)
  {
  }

  /**
   * A claim call that comes late enough for the first c runs advances one of them,
   * even if every worker died before it.
   */
  lemma RipeClaimAdvances(db: Db, op: Op, next: Db, c: nat)
    requires DbInv(db) && Next(db, op, next) && op.ClaimOp? && c <= |db.runs| <= |next.runs|
    requires Ripe(db, c, op.now) && !FirstFinished(db, c)
    ensures TotalMeasure(next.runs[..c]) < TotalMeasure(db.runs[..c])
  {
    hide Measure, RunInv, Next;
    CallsNeverAddWork(db, op, next);
    var i := RipeClaimMovesSome(db, op, next, c);
    assert next.runs[..c][i] == next.runs[i] && db.runs[..c][i] == db.runs[i];
    TotalMeasureDrops(db.runs[..c], next.runs[..c], true);
  }

  lemma RipeClaimMovesSome(db: Db, op: Op, next: Db, c: nat) returns (i: nat)
    requires DbInv(db) && Next(db, op, next) && op.ClaimOp? && c <= |db.runs|
    requires Ripe(db, c, op.now) && !FirstFinished(db, c)
    ensures i < c && |next.runs| == |db.runs| && Measure(next.runs[i]) < Measure(db.runs[i])
  {
    hide RunInv, Measure, Decide, Verdict, RecoverRun, Advances, ActionAt, ClaimStep, ExpiredCount;
    var r: nat :| r < c && !Finished(db.runs[r]);
    if Finished(RecoverRun(db.runs[r], op.now)) {
      i := r;
      UnfinishedOutweighsFinished(db.runs[r], RecoverRun(db.runs[r], op.now), op.now);
      ClaimAddsNothing(db, op, next, r);
    } else {
      var j := SweptRunActs(db, op.now, r);
      ClaimActsEarly(db, next, op, j);
      i :| i <= r && i < |db.runs| && Measure(next.runs[i]) < Measure(RecoverRun(db.runs[i], op.now));
      RecoverLosesWeight(db.runs[i], op.now);
    }
  }

  lemma ClaimAddsNothing(db: Db, op: Op, next: Db, r: nat)
    requires DbInv(db) && Next(db, op, next) && op.ClaimOp? && r < |db.runs|
    ensures |next.runs| == |db.runs| && Measure(next.runs[r]) <= Measure(RecoverRun(db.runs[r], op.now))
  {
    hide RunInv, Measure, Decide, Verdict, RecoverRun, Advances, ActionAt, ClaimStep, StartedStage;
    var _, _ := ClaimMovesOneStage(db, next, op.worker, op.leaseSeconds, op.now, op.result);
  }

  lemma UnfinishedOutweighsFinished(run: Run, swept: Run, now: int)
    requires RunInv(run) && swept == RecoverRun(run, now) && !Finished(run) && Finished(swept)
    ensures Measure(swept) < Measure(run)
  {
    RecoverKeepsInv(run, now);
    MeasureIsNatural(run);
    MeasureIsNatural(swept);
  }

  /** How many of the first n calls are claim calls that come late enough for the first c runs. */
  ghost function RipeClaims(dbs: seq<Db>, ops: seq<Op>, c: nat, n: nat): nat
    requires |dbs| == |ops| + 1 && n <= |ops|
  {
    if n == 0 then 0
    else RipeClaims(dbs, ops, c, n - 1) + if ops[n - 1].ClaimOp? && Ripe(dbs[n - 1], c, ops[n - 1].now) then 1 else 0
  }

  lemma FirstFinishedStays(db: Db, op: Op, next: Db, c: nat)
    requires DbInv(db) && Next(db, op, next) && c <= |db.runs| && FirstFinished(db, c)
    ensures c <= |next.runs| && FirstFinished(next, c)
  {
    NextKeeps(db, op, next);
    forall r | 0 <= r < c
      ensures Finished(next.runs[r])
    {
      assert Advances(db.runs[r], next.runs[r]);
    }
  }

  lemma CallSpends(db: Db, op: Op, next: Db, c: nat)
    requires DbInv(db) && Next(db, op, next) && c <= |db.runs| && !FirstFinished(db, c)
    ensures c <= |next.runs|
    ensures TotalMeasure(next.runs[..c])
              + (if op.ClaimOp? && Ripe(db, c, op.now) then 1 else 0) <= TotalMeasure(db.runs[..c])
  {
    hide Next, Measure, RunInv, Ripe;
    CallsNeverAddWork(db, op, next);
    if op.ClaimOp? && Ripe(db, c, op.now) {
      RipeClaimAdvances(db, op, next, c);
    } else {
      TotalMeasureDrops(db.runs[..c], next.runs[..c], false);
    }
  }

  lemma {:induction false} RipeClaimsSpend(dbs: seq<Db>, ops: seq<Op>, c: nat, n: nat)
    requires Trace(dbs, ops) && n <= |ops| && c <= |dbs[0].runs|
    ensures c <= |dbs[n].runs|
    ensures FirstFinished(dbs[n], c)
            || TotalMeasure(dbs[n].runs[..c]) + RipeClaims(dbs, ops, c, n) <= TotalMeasure(dbs[0].runs[..c])
  {
    hide Next, Ripe, InQueue, DbAdvances, DbInv, FirstFinished, TotalMeasure;
    if n > 0 {
      RipeClaimsSpend(dbs, ops, c, n - 1);
      CallAt(dbs, ops, n - 1);
      if FirstFinished(dbs[n - 1], c) {
        FirstFinishedStays(dbs[n - 1], ops[n - 1], dbs[n], c);
      } else {
        CallSpends(dbs[n - 1], ops[n - 1], dbs[n], c);
      }
    }
  }

  /**
   * No run starves: however executions, recoveries, crashes, other claims and the
   * creation of further runs interleave, as many claim calls that come late enough
   * for the first c runs as there is work left in these decide all of them.
   */
  lemma EveryRunFinishes(dbs: seq<Db>, ops: seq<Op>, c: nat)
    requires Trace(dbs, ops) && c <= |dbs[0].runs|
    requires RipeClaims(dbs, ops, c, |ops|) >= TotalMeasure(dbs[0].runs[..c])
    ensures c <= |dbs[|ops|].runs| && FirstFinished(dbs[|ops|], c)
  {
    hide Next, InQueue, RipeClaims, TotalMeasure, DbInv, FirstFinished;
    RipeClaimsSpend(dbs, ops, c, |ops|);
    TraceKeepsInv(dbs, ops, |ops|);
    if TotalMeasure(dbs[|ops|].runs[..c]) <= 0 {
      NoWorkLeft(dbs[|ops|], c);
    }
  }

  lemma NoWorkLeft(db: Db, c: nat)
    requires DbInv(db) && c <= |db.runs| && TotalMeasure(db.runs[..c]) <= 0
    ensures FirstFinished(db, c)
  {
    hide RunInv, TotalMeasure, Fifo;
    TotalMeasureZero(db.runs[..c]);
    forall r | 0 <= r < c
      ensures Finished(db.runs[r])
    {
      assert db.runs[..c][r] == db.runs[r];
    }
  }
}
