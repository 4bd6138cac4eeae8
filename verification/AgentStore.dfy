/**
 * The stage and run tables with the service calls that update them in place.
 * Each call is proved against its relation in AgentWorker.
 */
module AgentStore {
  import opened Common
  import opened AgentDag
  import opened AgentWorker
  import opened AgentLaws

  /** The roles whose ticket of run r is among the first k tickets. */
  ghost function Seen(queue: seq<Ticket>, k: nat, r: nat): (seen: set<Role>)
    requires k <= |queue|
  {
    set role: Role | Ticket(r, role) in queue[..k]
  }

  /** A run whose expired stages among the seen ones were reset, not yet finalized. */
  ghost function Reset(run: Run, seen: set<Role>, now: int): (part: Run)
    ensures part == run.(stages := part.stages)
    ensures forall r: Role :: part.stages[r] ==
              if r in seen && Expired(run.stages[r], now) then Recovered(run.stages[r], now) else run.stages[r]
  {
    run.(stages := Table(r => if r in seen && Expired(run.stages[r], now) then Recovered(run.stages[r], now)
                              else run.stages[r]))
  }

  /** A run when the sweep has reached only some of its stages. */
  ghost function SweptOver(run: Run, seen: set<Role>, now: int): Run {
    if exists r: Role :: r in seen && Expired(run.stages[r], now) then Finalize(Reset(run, seen, now), now) else run
  }

  /** While an expired stage is still to come nothing has been finalized. */
  lemma SweepPending(run: Run, seen: set<Role>, role: Role, now: int)
    requires Expired(run.stages[role], now) && role !in seen
    ensures SweptOver(run, seen, now) == Reset(run, seen, now)
  {
    hide Verdict;
    var part := Reset(run, seen, now);
    assert part.stages[role].state == Running;
    assert !AllTerminal(part);
    if !exists r: Role :: r in seen && Expired(run.stages[r], now) {
      assert part.stages == run.stages;
    }
  }

  /** Reaching one more expired stage: the earlier finalizations could not have fired. */
  lemma SweepReaches(run: Run, seen: set<Role>, role: Role, now: int)
    requires Expired(run.stages[role], now) && role !in seen
    ensures var before := SweptOver(run, seen, now);
            && before.stages[role] == run.stages[role]
            && SweptOver(run, seen + {role}, now) == RecoverStage(before, role, now)
  {
    hide Verdict, Finalize, Recovered, AllTerminal, Expired, AnyExpired;
    SweepPending(run, seen, role, now);
    assert Reset(run, seen + {role}, now).stages
        == SetStage(Reset(run, seen, now), role, Recovered(run.stages[role], now)).stages;
  }

  lemma SweptOverStages(run: Run, seen: set<Role>, now: int)
    ensures SweptOver(run, seen, now).stages == Reset(run, seen, now).stages
  {
    hide Verdict;
    if !exists r: Role :: r in seen && Expired(run.stages[r], now) {
      assert Reset(run, seen, now).stages == run.stages;
    }
  }

  /** Reaching a stage that was already seen or has not expired changes nothing. */
  lemma SweepPasses(run: Run, seen: set<Role>, role: Role, now: int)
    requires role in seen || !Expired(run.stages[role], now)
    ensures SweptOver(run, seen + {role}, now) == SweptOver(run, seen, now)
    ensures !Expired(SweptOver(run, seen, now).stages[role], now)
  {
    hide Finalize, AllTerminal, Verdict, Recovered, Expired;
    assert Reset(run, seen + {role}, now).stages == Reset(run, seen, now).stages;
    SweptOverStages(run, seen, now);
    RecoveredNotExpired(run.stages[role], now);
  }

  lemma RecoveredNotExpired(stage: Stage, now: int)
    ensures !Expired(Recovered(stage, now), now)
  {
  }

  lemma SweptOverAll(run: Run, seen: set<Role>, now: int)
    requires forall r: Role :: r in seen
    ensures SweptOver(run, seen, now) == RecoverRun(run, now)
  {
    assert Reset(run, seen, now).stages == Sweep(run, now).stages;
    if AnyExpired(run, now) {
      var e: Role :| Expired(run.stages[e], now);
      assert e in seen;
    }
  }

  /** One stage row for each run and role. */
  ghost predicate UniqueTickets(queue: seq<Ticket>) {
    forall i, j :: 0 <= i < j < |queue| ==> queue[i] != queue[j]
  }

  lemma FreshMeans(validUntil: int, timeouts: map<Role, nat>, now: int)
    ensures Fresh(FreshRun(validUntil, timeouts, now), validUntil, timeouts, now)
  {
  }

  lemma NextTicket(run: nat, s: nat)
    requires s < 8
    ensures NewTickets(run)[..s + 1] == NewTickets(run)[..s] + [Ticket(run, STAGE_SEQUENCE[s])]
  {
  }

  lemma NewTicketsUnique(db: Db)
    requires InQueue(db) && UniqueTickets(db.queue)
    ensures UniqueTickets(db.queue + NewTickets(|db.runs|))
  {
    forall k | 0 <= k < 8
      ensures SequenceIndex(NewTickets(|db.runs|)[k].role) == k
    {
    }
  }

  class AgentTables {
    var runs: seq<Run>
    var queue: seq<Ticket>

    ghost function Model(): Db
      reads this
    {
      Db(runs, queue)
    }

    ghost predicate Valid()
      reads this
    {
      DbInv(Model()) && UniqueTickets(queue)
    }

    constructor ()
      ensures Model() == EMPTY && Valid()
    {
      runs, queue := [], [];
    }

    /** Register a run with its eight stages, all PENDING. */
    method CreateDiagnosticRun(validUntil: int, timeouts: map<Role, nat>, now: int) returns (id: nat)
      requires Valid()
      modifies this
      ensures id == |old(runs)|
      ensures Next(old(Model()), CreateOp(validUntil, timeouts, now), Model()) && Valid()
      ensures |runs| == id + 1 && runs[..id] == old(runs) && Fresh(runs[id], validUntil, timeouts, now)
    {
      hide DbInv, FreshRun, UniqueTickets, InQueue, DbAdvances, FreshStage, NewTickets, Fresh;
      TicketsNameRuns(Model());
      CreateKeeps(Model(), validUntil, timeouts, now);
      NewTicketsUnique(Model());
      id := |runs|;
      FreshMeans(validUntil, timeouts, now);
      runs := runs + [FreshRun(validUntil, timeouts, now)];
      var s := 0;
      ghost var before := old(Model());
      assert NewTickets(id)[..0] == [];
      while s < |STAGE_SEQUENCE|
        invariant s <= 8 && runs == before.runs + [FreshRun(validUntil, timeouts, now)]
        invariant queue == before.queue + NewTickets(id)[..s]
      {
        NextTicket(id, s);
        queue := queue + [Ticket(id, STAGE_SEQUENCE[s])];
        s := s + 1;
      }
      assert NewTickets(id)[..8] == NewTickets(id);
    }

    /** Return expired stages to PENDING or time them out, finalizing runs as they complete. */
    method RecoverExpiredStages(now: int) returns (recovered: nat)
      requires Valid()
      modifies this
      ensures Model() == SweepAll(old(Model()), now) && Valid()
      ensures recovered == ExpiredRows(old(Model()), |old(queue)|, now)
      ensures |runs| == |old(runs)| && forall r :: 0 <= r < |runs| ==> SweptRun(old(runs)[r], runs[r], now)
    {
      hide SweptRun, DbInv, UniqueTickets, SweepAll, SweptDb, Expired, RecoverStage, DbAdvances;
      ghost var start := Model();
      TicketsNameRuns(start);
      SweptNone(start, now);
      recovered := 0;
      var k := 0;
      while k < |queue|
        invariant queue == start.queue && k <= |start.queue|
        invariant Model() == SweptDb(start, k, now)
        invariant recovered == ExpiredRows(start, k, now)
      {
        var r, role := queue[k].run, queue[k].role;
        SweptOneMore(start, k, Model(), r, role, now);
        SweptRowUntouched(start, k, r, role, now);
        var stage := runs[r].stages[role];
        if Expired(stage, now) {
          runs := runs[r := RecoverStage(runs[r], role, now)];
          recovered := recovered + 1;
        }
        k := k + 1;
      }
      SweptEverything(start, now);
      SweepKeeps(start, now);
      SweepAllMeans(start, now);
    }

    /** Sweep, then act on the first ticket that can be acted on; hand out a claim if it started. */
    method ClaimNextStage(worker: Worker, leaseSeconds: nat, now: int) returns (claim: Option<Claim>)
      requires Valid()
      modifies this
      ensures ClaimStep(old(Model()), Model(), worker, leaseSeconds, now, claim) && Valid()
      ensures InQueue(SweepAll(old(Model()), now))
      ensures ClaimsFirst(SweepAll(old(Model()), now), Model(), worker, leaseSeconds, now, claim)
    {
      hide ClaimsFirst, SweptRun, DbInv, Decide, Act, SweepAll, UniqueTickets, ClaimStep;
      ghost var start := Model();
      TicketsNameRuns(start);
      var recovered := RecoverExpiredStages(now);
      ghost var swept := Model();
      TicketsNameRuns(swept);
      claim := None;
      var k := 0;
      while k < |queue|
        invariant k <= |queue| && Model() == swept && claim == None
        invariant forall j :: 0 <= j < k ==> ActionAt(swept, j, now) == Skip
      {
        var Ticket(r, role) := queue[k];
        var action := Decide(runs[r], role, now);
        if action != Skip {
          claim := if action == Start then Some(Claim(r, role, runs[r].stages[role].fencingToken + 1)) else None;
          runs := runs[r := Act(runs[r], role, worker, leaseSeconds, now)];
          ClaimFound(start, k, worker, leaseSeconds, now);
          ClaimMeans(start, Model(), worker, leaseSeconds, now, claim);
          return;
        }
        k := k + 1;
      }
      ClaimFoundNothing(start, worker, leaseSeconds, now);
      ClaimMeans(start, Model(), worker, leaseSeconds, now, None);
    }

    /** Store the outcome of a claimed stage, unless the claim is no longer the current one. */
    method ExecuteClaimedStage(claim: Claim, worker: Worker, outcome: Outcome, now: int) returns (stored: bool)
      requires Valid() && ValidOutcome(claim.role, outcome)
      modifies this
      ensures Next(old(Model()), ExecuteOp(claim, worker, outcome, now, stored), Model()) && Valid()
      ensures stored <==>
                && claim.run < |old(runs)|
                && var row := old(runs)[claim.run].stages[claim.role];
                   row.state == Running && row.owner == Some(worker) && row.fencingToken == claim.token
      ensures stored ==>
                && runs == old(runs)[claim.run := runs[claim.run]]
                && EndedRun(old(runs)[claim.run], claim.role, outcome, now, runs[claim.run])
      ensures !stored ==> runs == old(runs)
    {
      hide EndedRun, Execute, DbInv;
      ghost var start := Model();
      if claim.run >= |runs| || !HoldsClaim(runs[claim.run].stages[claim.role], worker, claim.token) {
        return false;
      }
      ExecuteMeans(runs[claim.run], claim.role, outcome, now);
      runs := runs[claim.run := Execute(runs[claim.run], claim.role, outcome, now)];
      stored := true;
      NextKeeps(start, ExecuteOp(claim, worker, outcome, now, true), Model());
    }
  }

  lemma ClaimFound(db: Db, k: nat, worker: Worker, leaseSeconds: nat, now: int)
    requires DbInv(db) && InQueue(SweepAll(db, now)) && FirstActing(SweepAll(db, now), k, now)
    ensures var swept := SweepAll(db, now);
            var next := ActAt(swept, k, worker, leaseSeconds, now);
            ClaimStep(db, next, worker, leaseSeconds, now, ClaimAt(swept, k, now)) && DbInv(next)
  {
    var swept := SweepAll(db, now);
    var next := ActAt(swept, k, worker, leaseSeconds, now);
    assert ClaimStep(db, next, worker, leaseSeconds, now, ClaimAt(swept, k, now));
    ClaimKeeps(db, next, worker, leaseSeconds, now, ClaimAt(swept, k, now));
  }

  lemma ClaimFoundNothing(db: Db, worker: Worker, leaseSeconds: nat, now: int)
    requires DbInv(db) && InQueue(SweepAll(db, now)) && NothingActs(SweepAll(db, now), now)
    ensures ClaimStep(db, SweepAll(db, now), worker, leaseSeconds, now, None) && DbInv(SweepAll(db, now))
  {
    SweepKeeps(db, now);
  }

  /** How many of the first k stage rows hold an expired lease. */
  ghost function ExpiredRows(db: Db, k: nat, now: int): nat
    requires InQueue(db) && k <= |db.queue|
  {
    if k == 0 then 0
    else
      var row := db.runs[db.queue[k - 1].run].stages[db.queue[k - 1].role];
      ExpiredRows(db, k - 1, now) + if Expired(row, now) then 1 else 0
  }

  /** The sweep meets every stage row as it was before the sweep. */
  lemma SweptRowUntouched(db: Db, k: nat, r: nat, role: Role, now: int)
    requires InQueue(db) && UniqueTickets(db.queue) && k < |db.queue|
    requires db.queue[k] == Ticket(r, role)
    ensures SweptDb(db, k, now).runs[r].stages[role] == db.runs[r].stages[role]
  {
    assert role !in Seen(db.queue, k, r);
    if Expired(db.runs[r].stages[role], now) {
      SweepReaches(db.runs[r], Seen(db.queue, k, r), role, now);
    } else {
      assert Reset(db.runs[r], Seen(db.queue, k, r), now).stages[role] == db.runs[r].stages[role];
    }
  }

  /** The tables when the sweep has passed k tickets. */
  ghost function SweptDb(db: Db, k: nat, now: int): (swept: Db)
    requires InQueue(db) && k <= |db.queue|
    ensures swept.queue == db.queue && |swept.runs| == |db.runs|
    ensures InQueue(swept)
  {
    db.(runs := seq(|db.runs|, r requires 0 <= r < |db.runs| => SweptOver(db.runs[r], Seen(db.queue, k, r), now)))
  }

  lemma SweptNone(db: Db, now: int)
    requires InQueue(db)
    ensures SweptDb(db, 0, now) == db
  {
    forall r | 0 <= r < |db.runs|
      ensures SweptOver(db.runs[r], Seen(db.queue, 0, r), now) == db.runs[r]
    {
      SeenNothing(db, r, now);
    }
    assert SweptDb(db, 0, now).runs == db.runs;
  }

  lemma SweptEverything(db: Db, now: int)
    requires DbInv(db)
    ensures SweptDb(db, |db.queue|, now) == SweepAll(db, now)
  {
    hide RunInv, Finalize, RecoverRun, SweptOver;
    forall r | 0 <= r < |db.runs|
      ensures SweptOver(db.runs[r], Seen(db.queue, |db.queue|, r), now) == RecoverRun(db.runs[r], now)
    {
      SeenAll(db, r);
      SweptOverAll(db.runs[r], Seen(db.queue, |db.queue|, r), now);
    }
    assert SweptDb(db, |db.queue|, now).runs == SweepAll(db, now).runs;
  }

  lemma SweptOneMore(db: Db, k: nat, before: Db, r: nat, role: Role, now: int)
    requires InQueue(db) && k < |db.queue| && db.queue[k] == Ticket(r, role) && before == SweptDb(db, k, now)
    ensures r < |before.runs|
    ensures Expired(before.runs[r].stages[role], now) ==>
              SweptDb(db, k + 1, now) == before.(runs := before.runs[r := RecoverStage(before.runs[r], role, now)])
    ensures !Expired(before.runs[r].stages[role], now) ==> SweptDb(db, k + 1, now) == before
  {
    hide RecoverStage, SweptOver, Seen;
    SeenGrows(db, k, now);
    var after := if Expired(before.runs[r].stages[role], now)
                 then before.runs[r := RecoverStage(before.runs[r], role, now)]
                 else before.runs;
    assert SweptDb(db, k + 1, now).runs == after;
  }

  lemma TicketsNameRuns(db: Db)
    requires DbInv(db)
    ensures InQueue(db)
  {
  }

  lemma SeenNothing(db: Db, r: nat, now: int)
    requires r < |db.runs|
    ensures SweptOver(db.runs[r], Seen(db.queue, 0, r), now) == db.runs[r]
  {
  }

  lemma SeenAll(db: Db, r: nat)
    requires DbInv(db) && r < |db.runs|
    ensures forall role: Role :: role in Seen(db.queue, |db.queue|, r)
  {
    forall role: Role
      ensures role in Seen(db.queue, |db.queue|, r)
    {
      assert Ticket(r, role) in db.queue;
    }
  }

  /** Passing ticket k adds its role to what the sweep has seen of its run, and nothing else. */
  lemma SeenGrows(db: Db, k: nat, now: int)
    requires InQueue(db) && k < |db.queue|
    ensures var Ticket(r, role) := db.queue[k];
            var run := db.runs[r];
            var before := SweptOver(run, Seen(db.queue, k, r), now);
            SweptOver(run, Seen(db.queue, k + 1, r), now) ==
              if Expired(before.stages[role], now)
              then RecoverStage(before, role, now)
              else before
    ensures forall i: nat :: i < |db.runs| && i != db.queue[k].run ==> Seen(db.queue, k + 1, i) == Seen(db.queue, k, i)
  {
    var Ticket(r, role) := db.queue[k];
    var seen := Seen(db.queue, k, r);
    assert db.queue[..k + 1] == db.queue[..k] + [db.queue[k]];
    assert Seen(db.queue, k + 1, r) == seen + {role};
    if role in seen || !Expired(db.runs[r].stages[role], now) {
      SweepPasses(db.runs[r], seen, role, now);
    } else {
      SweepReaches(db.runs[r], seen, role, now);
    }
  }
}
