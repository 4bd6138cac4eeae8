/**
 * The worker protocol over all runs: creation, the recovery sweep, the claim
 * loop and the fenced execution of a claimed stage, first as relations between
 * databases, then as the service calls that update the tables in place.
 */
module AgentWorker {
  import opened Common
  import opened AgentDag

  /** One stage row, in the order the claim loop reads them. */
  datatype Ticket = Ticket(run: nat, role: Role)

  datatype Db = Db(runs: seq<Run>, queue: seq<Ticket>)

  datatype Claim = Claim(run: nat, role: Role, token: nat)

  predicate InQueue(db: Db) {
    forall k :: 0 <= k < |db.queue| ==> db.queue[k].run < |db.runs|
  }

  /** The rows of earlier runs come first. */
  ghost predicate Fifo(queue: seq<Ticket>) {
    forall i, j :: 0 <= i < j < |queue| ==> queue[i].run <= queue[j].run
  }

  ghost predicate DbInv(db: Db) {
    && (forall r :: 0 <= r < |db.runs| ==> RunInv(db.runs[r]))
    && InQueue(db) && Fifo(db.queue)
    && (forall r: nat, role: Role {:trigger Ticket(r, role)} :: r < |db.runs| ==> Ticket(r, role) in db.queue)
  }

  const EMPTY := Db([], [])

  const STAGE_SEQUENCE: seq<Role> :=
    [IntelCollector, EvidenceVerifier, TechnicalScout, NewsScout, MarketScout, PositionScout, CandidateAuditor, Core]

  function NewTickets(run: nat): (tickets: seq<Ticket>)
    ensures |tickets| == 8
    ensures forall k :: 0 <= k < 8 ==> tickets[k] == Ticket(run, STAGE_SEQUENCE[k])
  {
    seq(8, k requires 0 <= k < 8 => Ticket(run, STAGE_SEQUENCE[k]))
  }

  function CreateRun(db: Db, validUntil: int, timeouts: map<Role, nat>, now: int): Db {
    Db(db.runs + [FreshRun(validUntil, timeouts, now)], db.queue + NewTickets(|db.runs|))
  }

  /** Every run after one recovery sweep. */
  function SweepAll(db: Db, now: int): Db {
    db.(runs := seq(|db.runs|, r requires 0 <= r < |db.runs| => RecoverRun(db.runs[r], now)))
  }

  function ActionAt(db: Db, k: nat, now: int): Action
    requires InQueue(db) && k < |db.queue|
  {
    Decide(db.runs[db.queue[k].run], db.queue[k].role, now)
  }

  function ActAt(db: Db, k: nat, worker: Worker, leaseSeconds: nat, now: int): Db
    requires InQueue(db) && k < |db.queue|
  {
    var Ticket(r, role) := db.queue[k];
    db.(runs := db.runs[r := Act(db.runs[r], role, worker, leaseSeconds, now)])
  }

  /** The claim handed out for ticket k, if acting on it started the stage. */
  function ClaimAt(db: Db, k: nat, now: int): Option<Claim>
    requires InQueue(db) && k < |db.queue|
  {
    var Ticket(r, role) := db.queue[k];
    if ActionAt(db, k, now) == Start then Some(Claim(r, role, db.runs[r].stages[role].fencingToken + 1)) else None
  }

  /** Ticket k is the first one the claim loop does not pass over. */
  ghost predicate FirstActing(db: Db, k: nat, now: int)
    requires InQueue(db)
  {
    && k < |db.queue|
    && ActionAt(db, k, now) != Skip
    && forall j :: 0 <= j < k ==> ActionAt(db, j, now) == Skip
  }

  ghost predicate NothingActs(db: Db, now: int)
    requires InQueue(db)
  {
    forall j :: 0 <= j < |db.queue| ==> ActionAt(db, j, now) == Skip
  }

  /** A claim call: sweep, then act on the first ticket that can be acted on. */
  ghost predicate ClaimStep(db: Db, next: Db, worker: Worker, leaseSeconds: nat, now: int, claim: Option<Claim>)
    requires InQueue(db)
  {
    var swept := SweepAll(db, now);
    || (exists k: nat {:trigger FirstActing(swept, k, now)} ::
          FirstActing(swept, k, now) && next == ActAt(swept, k, worker, leaseSeconds, now)
          && claim == ClaimAt(swept, k, now))
    || (NothingActs(swept, now) && next == swept && claim == None)
  }

  predicate MayStore(db: Db, claim: Claim, worker: Worker) {
    claim.run < |db.runs| && HoldsClaim(db.runs[claim.run].stages[claim.role], worker, claim.token)
  }

  function ExecuteAt(db: Db, claim: Claim, outcome: Outcome, now: int): Db
    requires claim.run < |db.runs|
  {
    db.(runs := db.runs[claim.run := Execute(db.runs[claim.run], claim.role, outcome, now)])
  }

  // ---------------------------------------------------------------- runs of the protocol

  datatype Op =
    | CreateOp(validUntil: int, timeouts: map<Role, nat>, now: int)
    | RecoverOp(now: int)
    | ClaimOp(worker: Worker, leaseSeconds: nat, now: int, result: Option<Claim>)
    | ExecuteOp(claim: Claim, worker: Worker, outcome: Outcome, now: int, stored: bool)

  ghost predicate Next(db: Db, op: Op, next: Db)
    requires InQueue(db)
  {
    match op
    case CreateOp(validUntil, timeouts, now) => next == CreateRun(db, validUntil, timeouts, now)
    case RecoverOp(now) => next == SweepAll(db, now)
    case ClaimOp(worker, leaseSeconds, now, result) => ClaimStep(db, next, worker, leaseSeconds, now, result)
    case ExecuteOp(claim, worker, outcome, now, stored) =>
      && stored == MayStore(db, claim, worker)
      && (stored ==> ValidOutcome(claim.role, outcome))
      && next == if stored then ExecuteAt(db, claim, outcome, now) else db
  }

  /** Any interleaving of service calls by any number of workers. */
  ghost predicate Trace(dbs: seq<Db>, ops: seq<Op>) {
    && |dbs| == |ops| + 1
    && DbInv(dbs[0])
    && (forall i :: 0 <= i < |dbs| ==> InQueue(dbs[i]))
    && forall i :: 0 <= i < |ops| ==> Next(dbs[i], ops[i], dbs[i + 1])
  }

  // ---------------------------------------------------------------- one call keeps everything

  /** Runs are only added, and nothing about them is undone. */
  ghost predicate DbAdvances(db: Db, next: Db) {
    && |db.runs| <= |next.runs|
    && db.queue <= next.queue
    && forall r :: 0 <= r < |db.runs| ==> Advances(db.runs[r], next.runs[r])
  }

  lemma SweepKeeps(db: Db, now: int)
    requires DbInv(db)
    ensures DbInv(SweepAll(db, now)) && DbAdvances(db, SweepAll(db, now))
  {
    forall r | 0 <= r < |db.runs|
      ensures RunInv(RecoverRun(db.runs[r], now)) && Advances(db.runs[r], RecoverRun(db.runs[r], now))
    {
      RecoverKeepsInv(db.runs[r], now);
      RecoverAdvances(db.runs[r], now);
    }
  }

  lemma ReplaceKeeps(db: Db, r: nat, run: Run)
    requires DbInv(db) && r < |db.runs| && RunInv(run) && Advances(db.runs[r], run)
    ensures DbInv(db.(runs := db.runs[r := run])) && DbAdvances(db, db.(runs := db.runs[r := run]))
  {
    hide RunInv, Advances;
    forall i | 0 <= i < |db.runs|
      ensures Advances(db.runs[i], db.runs[r := run][i])
    {
      AdvancesReflexive(db.runs[i]);
    }
  }

  lemma AdvancesReflexive(run: Run)
    ensures Advances(run, run)
  {
  }

  lemma CreateKeeps(db: Db, validUntil: int, timeouts: map<Role, nat>, now: int)
    requires DbInv(db)
    ensures var next := CreateRun(db, validUntil, timeouts, now);
            DbInv(next) && DbAdvances(db, next)
  {
    var next := CreateRun(db, validUntil, timeouts, now);
    var n := |db.runs|;
    FreshRunInv(validUntil, timeouts, now);
    forall r: nat, role: Role | r < |next.runs|
      ensures Ticket(r, role) in next.queue
    {
      if r == n {
        var k := SequenceIndex(role);
        assert NewTickets(n)[k] == Ticket(r, role);
        assert next.queue[|db.queue| + k] == Ticket(r, role);
      } else {
        assert Ticket(r, role) in db.queue;
      }
    }
  }

  function SequenceIndex(role: Role): (k: nat)
    ensures k < 8 && STAGE_SEQUENCE[k] == role
  {
    match role
    case IntelCollector => 0
    case EvidenceVerifier => 1
    case TechnicalScout => 2
    case NewsScout => 3
    case MarketScout => 4
    case PositionScout => 5
    case CandidateAuditor => 6
    case Core => 7
  }

  lemma DbAdvancesReflexive(db: Db)
    ensures DbAdvances(db, db)
  {
  }

  lemma DbAdvancesTransitive(a: Db, b: Db, c: Db)
    requires DbAdvances(a, b) && DbAdvances(b, c)
    ensures DbAdvances(a, c)
  {
    forall r | 0 <= r < |a.runs|
      ensures Advances(a.runs[r], c.runs[r])
    {
      AdvancesTransitive(a.runs[r], b.runs[r], c.runs[r]);
    }
  }

  /** One run of the database moved by one action on one of its stages; every other row is the swept one. */
  ghost predicate OneStageMoved(swept: Db, next: Db, r: nat, role: Role) {
    && r < |swept.runs| == |next.runs|
    && next == swept.(runs := swept.runs[r := next.runs[r]])
    && Progress(swept.runs[r], next.runs[r], role)
  }

  /** Either a claim call only swept, or after the sweep it moved exactly one stage. */
  lemma ClaimMovesOneStage(db: Db, next: Db, worker: Worker, leaseSeconds: nat, now: int, claim: Option<Claim>)
      returns (r: nat, role: Role)
    requires DbInv(db) && ClaimStep(db, next, worker, leaseSeconds, now, claim)
    ensures (next == SweepAll(db, now) && claim == None && NothingActs(next, now))
            || (OneStageMoved(SweepAll(db, now), next, r, role)
                && claim == ClaimOn(next, r, role)
                && (claim.Some? ==> StartedStage(SweepAll(db, now).runs[r].stages[role], next.runs[r].stages[role],
                                                 worker, leaseSeconds, now)))
  {
    hide RunInv, Decide, Act, RecoverRun, Measure, Advances, Progress, StartedStage, HoldsClaim, Verdict;
    var swept := SweepAll(db, now);
    r, role := 0, Core;
    if !NothingActs(swept, now) {
      var k: nat :| FirstActing(swept, k, now) && next == ActAt(swept, k, worker, leaseSeconds, now)
      && claim == ClaimAt(swept, k, now);
      r, role := swept.queue[k].run, swept.queue[k].role;
      RecoverKeepsInv(db.runs[r], now);
      ActKeepsInv(swept.runs[r], role, worker, leaseSeconds, now);
      ActedRow(swept.runs[r], role, worker, leaseSeconds, now);
      StartedToken(swept.runs[r].stages[role], next.runs[r].stages[role], worker, leaseSeconds, now);
    }
  }

  lemma StartedToken(before: Stage, after: Stage, worker: Worker, leaseSeconds: nat, now: int)
    ensures StartedStage(before, after, worker, leaseSeconds, now) ==> after.fencingToken == before.fencingToken + 1
  {
  }

  /** The claim a call hands out is on the stage it moved to RUNNING. */
  function ClaimOn(db: Db, r: nat, role: Role): Option<Claim>
    requires r < |db.runs|
  {
    var stage := db.runs[r].stages[role];
    if stage.state == Running then Some(Claim(r, role, stage.fencingToken)) else None
  }

  /** A stage row right after it was claimed. */
  ghost predicate StartedStage(before: Stage, after: Stage, worker: Worker, leaseSeconds: nat, now: int) {
    && before.state == Pending
    && HoldsClaim(after, worker, before.fencingToken + 1)
    && after.leaseExpiresAt == Some(now + leaseSeconds)
    && after.timeoutAt == Some(now + after.timeoutSeconds)
  }

  lemma ActedRow(run: Run, role: Role, worker: Worker, leaseSeconds: nat, now: int)
    requires Decide(run, role, now) != Skip
    ensures var next := Act(run, role, worker, leaseSeconds, now);
            && (next.stages[role].state == Running <==> Decide(run, role, now) == Start)
            && (Decide(run, role, now) == Start ==>
                  StartedStage(run.stages[role], next.stages[role], worker, leaseSeconds, now))
  {
    hide Decide, Verdict, AllTerminal;
    assert Act(run, role, worker, leaseSeconds, now).stages[role] == Acted(run, role, worker, leaseSeconds, now);
    ActsOnPending(run, role, now);
  }

  lemma ActsOnPending(run: Run, role: Role, now: int)
    requires Decide(run, role, now) != Skip
    ensures run.stages[role].state == Pending
  {
  }

  lemma ClaimKeeps(db: Db, next: Db, worker: Worker, leaseSeconds: nat, now: int, claim: Option<Claim>)
    requires DbInv(db) && ClaimStep(db, next, worker, leaseSeconds, now, claim)
    ensures DbInv(next) && DbAdvances(db, next)
  {
    var swept := SweepAll(db, now);
    SweepKeeps(db, now);
    var r, role := ClaimMovesOneStage(db, next, worker, leaseSeconds, now, claim);
    if next != swept {
      ReplaceKeeps(swept, r, next.runs[r]);
      DbAdvancesTransitive(db, swept, next);
    }
  }

  lemma NextKeeps(db: Db, op: Op, next: Db)
    requires DbInv(db) && Next(db, op, next)
    ensures DbInv(next) && DbAdvances(db, next)
  {
    match op
    case CreateOp(validUntil, timeouts, now) => CreateKeeps(db, validUntil, timeouts, now);
    case RecoverOp(now) => SweepKeeps(db, now);
    case ClaimOp(worker, leaseSeconds, now, result) => ClaimKeeps(db, next, worker, leaseSeconds, now, result);
    case ExecuteOp(claim, worker, outcome, now, stored) =>
      if stored {
        ExecuteKeepsInv(db.runs[claim.run], claim.role, worker, claim.token, outcome, now);
        ReplaceKeeps(db, claim.run, Execute(db.runs[claim.run], claim.role, outcome, now));
      }
  }

  // ---------------------------------------------------------------- safety over whole runs

  /** Every reachable database is legal. */
  lemma {:induction false} TraceKeepsInv(dbs: seq<Db>, ops: seq<Op>, i: nat)
    requires Trace(dbs, ops) && i < |dbs|
    ensures DbInv(dbs[i])
  {
    if i > 0 {
      TraceKeepsInv(dbs, ops, i - 1);
      NextKeeps(dbs[i - 1], ops[i - 1], dbs[i]);
    }
  }

  /** What is known around call n of a trace. */
  lemma CallAt(dbs: seq<Db>, ops: seq<Op>, n: nat)
    requires Trace(dbs, ops) && n < |ops|
    ensures DbInv(dbs[n]) && DbInv(dbs[n + 1]) && InQueue(dbs[n]) && Next(dbs[n], ops[n], dbs[n + 1])
    ensures DbAdvances(dbs[n], dbs[n + 1])
  {
    TraceKeepsInv(dbs, ops, n);
    NextKeeps(dbs[n], ops[n], dbs[n + 1]);
  }

  /** Between any two moments nothing is undone: terminal rows, finished runs and used tokens stay. */
  lemma {:induction false} TraceAdvances(dbs: seq<Db>, ops: seq<Op>, i: nat, j: nat)
    requires Trace(dbs, ops) && i <= j < |dbs|
    ensures DbAdvances(dbs[i], dbs[j])
    decreases j
  {
    hide Next, DbInv, DbAdvances;
    DbAdvancesReflexive(dbs[i]);
    if i < j {
      TraceAdvances(dbs, ops, i, j - 1);
      CallAt(dbs, ops, j - 1);
      DbAdvancesTransitive(dbs[i], dbs[j - 1], dbs[j]);
    }
  }

  /** The same for one stage row: a terminal row never changes and tokens only grow. */
  lemma StageOnlyAdvances(dbs: seq<Db>, ops: seq<Op>, i: nat, j: nat, r: nat, role: Role)
    requires Trace(dbs, ops) && i <= j < |dbs| && r < |dbs[i].runs|
    ensures r < |dbs[j].runs| && StageAdvances(dbs[i].runs[r].stages[role], dbs[j].runs[r].stages[role])
  {
    TraceAdvances(dbs, ops, i, j);
    assert Advances(dbs[i].runs[r], dbs[j].runs[r]);
  }

  /**
   * A run is decided exactly when CORE is, CORE is always the last stage to be
   * decided, and from then on neither the run row nor any stage row changes.
   */
  lemma FinalizedOnceByCore(dbs: seq<Db>, ops: seq<Op>, i: nat, j: nat, r: nat)
    requires Trace(dbs, ops) && i <= j < |dbs| && r < |dbs[i].runs|
    ensures r < |dbs[j].runs|
    ensures var run := dbs[i].runs[r];
            && (Finished(run) <==> Terminal(run.stages[Core].state))
            && (run.stages[Core].state != Pending ==> forall s: Role :: s != Core ==> Terminal(run.stages[s].state))
            && (Finished(run) ==> dbs[j].runs[r] == run)
  {
    TraceKeepsInv(dbs, ops, i);
    CoreIsLast(dbs[i].runs[r]);
    TraceAdvances(dbs, ops, i, j);
    assert Advances(dbs[i].runs[r], dbs[j].runs[r]);
  }

  /** What a decided run means, in every reachable database. */
  lemma VerdictMeaning(dbs: seq<Db>, ops: seq<Op>, i: nat, r: nat)
    requires Trace(dbs, ops) && i < |dbs| && r < |dbs[i].runs|
    ensures var run := dbs[i].runs[r];
            && (run.state == RunFailed <==>
                  AllTerminal(run) && (run.stages[Core].state != Succeeded
                                       || exists s: Role :: Failing(run.stages[s].state)))
            && (run.state == RunSucceeded <==> AllGood(run) && run.bundle == Some(Verified))
            && (run.state == Partial <==>
                  AllTerminal(run) && run.state != RunFailed && !(AllGood(run) && run.bundle == Some(Verified)))
  {
    TraceKeepsInv(dbs, ops, i);
    FailedMeans(dbs[i].runs[r]);
    SucceededMeans(dbs[i].runs[r]);
  }
}
