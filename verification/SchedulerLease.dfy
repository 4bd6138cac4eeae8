/**
 * The scheduler's lease: one owner at a time, a fencing token that rises with
 * every acquisition, and a state row that only the current holder may write.
 */
module SchedulerLease {
  import opened Common

  datatype Lease = Lease(owner: string, token: nat, expiresAt: int, version: nat)

  datatype SchedulerState = SchedulerState(
    name: string,
    token: nat,
    heartbeatAt: int,
    slot: Option<string>,
    tickAt: Option<int>,
    dueAt: Option<int>,
    completedAt: Option<int>,
    counts: (nat, nat, nat, nat),
    error: Option<string>)

  datatype Identity = Identity(owner: string, token: nat)

  datatype Store = Store(lease: Option<Lease>, state: Option<SchedulerState>)

  /** What a state update carries. */
  datatype Update = Update(name: string, slot: Option<string>, dueAt: Option<int>, completed: bool,
                           counts: (nat, nat, nat, nat), error: Option<string>)

  // ---------------------------------------------------------------- the calls

  function Acquire(s: Store, owner: string, seconds: int, now: int): (Store, Option<Identity>) {
    match s.lease
    case None => (s.(lease := Some(Lease(owner, 1, now + seconds, 1))), Some(Identity(owner, 1)))
    case Some(l) =>
      if l.expiresAt > now && l.owner != owner then (s, None)
      else (s.(lease := Some(Lease(owner, l.token + 1, now + seconds, l.version + 1))),
            Some(Identity(owner, l.token + 1)))
  }

  predicate Owns(s: Store, id: Identity) {
    s.lease.Some? && s.lease.value.owner == id.owner && s.lease.value.token == id.token
  }

  predicate Holds(s: Store, id: Identity, now: int) {
    Owns(s, id) && s.lease.value.expiresAt > now
  }

  function Renew(s: Store, id: Identity, seconds: int, now: int): (Store, bool) {
    if !Holds(s, id, now) then (s, false)
    else
      var l := s.lease.value;
      (Store(Some(l.(expiresAt := now + seconds, version := l.version + 1)),
             if s.state.Some? && s.state.value.token == id.token then Some(s.state.value.(heartbeatAt := now))
             else s.state),
       true)
  }

  function Written(state: Option<SchedulerState>, id: Identity, u: Update, now: int): SchedulerState {
    var before := if state.Some? then state.value
                  else SchedulerState(u.name, id.token, now, None, None, None, None, (0, 0, 0, 0), None);
    SchedulerState(u.name, id.token, now,
                   if u.slot.Some? then u.slot else before.slot,
                   if u.slot.Some? then Some(now) else before.tickAt,
                   u.dueAt,
                   if u.completed then Some(now) else before.completedAt,
                   if u.completed then u.counts else before.counts,
                   u.error)
  }

  function WriteState(s: Store, id: Identity, u: Update, now: int): (Store, bool) {
    if !Holds(s, id, now) then (s, false) else (s.(state := Some(Written(s.state, id, u, now))), true)
  }

  /** Releasing needs no unexpired lease, only the current token. */
  function Release(s: Store, id: Identity, now: int): (Store, bool) {
    if !Owns(s, id) then (s, false)
    else
      var l := s.lease.value;
      (Store(Some(l.(expiresAt := now, version := l.version + 1)),
             if s.state.Some? && s.state.value.token == id.token
             then Some(s.state.value.(name := "STOPPED", heartbeatAt := now)) else s.state),
       true)
  }

  datatype Call =
    | AcquireCall(owner: string, seconds: int, now: int)
    | RenewCall(id: Identity, seconds: int, now: int)
    | WriteCall(id: Identity, u: Update, now: int)
    | ReleaseCall(id: Identity, now: int)

  function Step(s: Store, call: Call): Store {
    match call
    case AcquireCall(owner, seconds, now) => Acquire(s, owner, seconds, now).0
    case RenewCall(id, seconds, now) => Renew(s, id, seconds, now).0
    case WriteCall(id, u, now) => WriteState(s, id, u, now).0
    case ReleaseCall(id, now) => Release(s, id, now).0
  }

  /** The identity an acquisition hands out. */
  function Granted(s: Store, call: Call): Option<Identity> {
    if call.AcquireCall? then Acquire(s, call.owner, call.seconds, call.now).1 else None
  }

  /** Whether a call made under an identity went through. */
  function Accepted(s: Store, call: Call): bool
    requires !call.AcquireCall?
  {
    match call
    case RenewCall(id, seconds, now) => Renew(s, id, seconds, now).1
    case WriteCall(id, u, now) => WriteState(s, id, u, now).1
    case ReleaseCall(id, now) => Release(s, id, now).1
  }

  function Run(s: Store, calls: seq<Call>): Store {
    if calls == [] then s else Step(Run(s, calls[..|calls| - 1]), calls[|calls| - 1])
  }

  // ---------------------------------------------------------------- fencing

  function Token(s: Store): nat {
    if s.lease.Some? then s.lease.value.token else 0
  }

  function StateToken(s: Store): nat {
    if s.state.Some? then s.state.value.token else 0
  }

  /** The state row never carries a token the lease has not reached. */
  predicate Fenced(s: Store) {
    StateToken(s) <= Token(s) && (s.lease.Some? ==> s.lease.value.token > 0)
  }

  /** Tokens never fall, and the owner only changes together with the token. */
  predicate Advances(a: Store, b: Store) {
    && Token(a) <= Token(b) && StateToken(a) <= StateToken(b)
    && (a.lease.Some? ==> b.lease.Some? && (Token(a) == Token(b) ==> a.lease.value.owner == b.lease.value.owner))
  }

  lemma StepKeeps(s: Store, call: Call)
    requires Fenced(s)
    ensures Fenced(Step(s, call)) && Advances(s, Step(s, call))
    ensures Granted(s, call).Some? ==> Token(Step(s, call)) == Token(s) + 1 == Granted(s, call).value.token
    ensures Granted(s, call).None? ==> Token(Step(s, call)) == Token(s)
  {
  }

  lemma {:induction false} RunKeeps(s: Store, calls: seq<Call>)
    requires Fenced(s)
    ensures Fenced(Run(s, calls)) && Advances(s, Run(s, calls))
  {
    if calls != [] {
      RunKeeps(s, calls[..|calls| - 1]);
      StepKeeps(Run(s, calls[..|calls| - 1]), calls[|calls| - 1]);
    }
  }

  lemma {:induction false} RunSplits(s: Store, first: seq<Call>, more: seq<Call>)
    ensures Run(s, first + more) == Run(Run(s, first), more)
  {
    hide Step;
    if more == [] {
      assert first + more == first;
    } else {
      var n := |more| - 1;
      RunSplits(s, first, more[..n]);
      assert (first + more)[..|first| + n] == first + more[..n];
    }
  }

  const EMPTY := Store(None, None)

  /** In every run the k-th acquisition gets a token greater than all before it. */
  lemma TokensRise(calls: seq<Call>, i: nat, j: nat)
    requires i < j < |calls|
    requires Granted(Run(EMPTY, calls[..i]), calls[i]).Some? && Granted(Run(EMPTY, calls[..j]), calls[j]).Some?
    ensures Granted(Run(EMPTY, calls[..i]), calls[i]).value.token < Granted(Run(EMPTY, calls[..j]),
                calls[j]).value.token
  {
    hide Step, Granted, Run;
    var before, after := calls[..i], calls[..i + 1];
    RunKeeps(EMPTY, before);
    StepKeeps(Run(EMPTY, before), calls[i]);
    OneMore(EMPTY, calls, i);
    RunKeeps(Run(EMPTY, after), calls[i + 1..j]);
    RunSplits(EMPTY, after, calls[i + 1..j]);
    assert calls[..j] == after + calls[i + 1..j];
    StepKeeps(Run(EMPTY, calls[..j]), calls[j]);
  }

  lemma OneMore(s: Store, calls: seq<Call>, i: nat)
    requires i < |calls|
    ensures Run(s, calls[..i + 1]) == Step(Run(s, calls[..i]), calls[i])
    ensures Fenced(s) ==> Fenced(Run(s, calls[..i + 1]))
  {
    assert calls[..i + 1][..i] == calls[..i];
    if Fenced(s) {
      RunKeeps(s, calls[..i + 1]);
    }
  }

  /** After a later acquisition an older identity can neither renew nor write nor release, ever again. */
  lemma OldTokenIsPowerless(s: Store, calls: seq<Call>, call: Call)
    requires Fenced(s) && !call.AcquireCall? && call.id.token < Token(s)
    ensures !Accepted(Run(s, calls), call) && Step(Run(s, calls), call) == Run(s, calls)
  {
    hide Run;
    RunKeeps(s, calls);
  }

  /** An identity forged for a token that was handed to somebody else is refused as well. */
  lemma ForeignTokenIsPowerless(s: Store, calls: seq<Call>, call: Call)
    requires Fenced(s) && s.lease.Some? && !call.AcquireCall?
    requires call.id.token == Token(s) && call.id.owner != s.lease.value.owner
    ensures !Accepted(Run(s, calls), call)
  {
    hide Run;
    RunKeeps(s, calls);
  }

  /** Somebody else gets the lease only once it has run out. */
  lemma TakenOverOnlyAfterExpiry(s: Store, owner: string, seconds: int, now: int)
    requires s.lease.Some? && s.lease.value.owner != owner
    ensures Acquire(s, owner, seconds, now).1.Some? <==> s.lease.value.expiresAt <= now
    ensures Acquire(s, owner, seconds, now).1.None? ==> Acquire(s, owner, seconds, now).0 == s
  {
  }

  /** A call in somebody else's name: not the owner's acquisition, not under the holder's token. */
  predicate ByOthers(call: Call, l: Lease) {
    match call
    case AcquireCall(owner, _, _) => owner != l.owner
    case RenewCall(id, _, _) => id != Identity(l.owner, l.token)
    case WriteCall(id, _, _) => id != Identity(l.owner, l.token)
    case ReleaseCall(id, _) => id != Identity(l.owner, l.token)
  }

  /** Until the lease runs out, nothing others do touches it or the state row. */
  lemma {:induction false} HolderIsUndisturbed(s: Store, calls: seq<Call>)
    requires s.lease.Some?
    requires forall i :: 0 <= i < |calls| ==>
               ByOthers(calls[i], s.lease.value) && calls[i].now < s.lease.value.expiresAt
    ensures Run(s, calls) == s
  {
    if calls != [] {
      HolderIsUndisturbed(s, calls[..|calls| - 1]);
    }
  }

  /** The identity under which a call acquires or renews the lease, and for how long. */
  predicate Takes(s: Store, call: Call, id: Identity, until: int) {
    match call
    case AcquireCall(owner, seconds, now) => Granted(s, call) == Some(id) && until == now + seconds
    case RenewCall(renewing, seconds, now) => Accepted(s, call) && id == renewing && until == now + seconds
    case _ => false
  }

  /**
   * A lease acquired or renewed for some seconds keeps every other owner out until
   * they are over and not longer, whatever others call in the meantime.
   */
  lemma OthersWaitExactly(s: Store, call: Call, id: Identity, until: int, calls: seq<Call>, owner: string, seconds: int,
                          later: int)
    requires Takes(s, call, id, until) && owner != id.owner
    requires forall i :: 0 <= i < |calls| ==>
               ByOthers(calls[i], Lease(id.owner, id.token, until, 0)) && calls[i].now < until
    ensures var after := Run(Step(s, call), calls);
            Granted(after, AcquireCall(owner, seconds, later)).Some? <==> until <= later
  {
    var taken := Step(s, call);
    assert taken.lease.Some? && taken.lease.value.owner == id.owner && taken.lease.value.token == id.token;
    assert taken.lease.value.expiresAt == until;
    HolderIsUndisturbed(taken, calls);
  }

  /** The holder itself is served at any time: it renews and writes until then, under the token it got. */
  lemma HolderWorksExactly(s: Store, call: Call, id: Identity, until: int, calls: seq<Call>, work: Call)
    requires Takes(s, call, id, until) && (work.RenewCall? || work.WriteCall?) && work.id == id
    requires forall i :: 0 <= i < |calls| ==>
               ByOthers(calls[i], Lease(id.owner, id.token, until, 0)) && calls[i].now < until
    ensures Accepted(Run(Step(s, call), calls), work) <==> work.now < until
  {
    HolderIsUndisturbed(Step(s, call), calls);
  }

  /** A released lease goes to whoever asks next. */
  lemma ReleasedAtOnce(s: Store, id: Identity, now: int, owner: string, seconds: int, later: int)
    requires Accepted(s, ReleaseCall(id, now)) && now <= later
    ensures Granted(Step(s, ReleaseCall(id, now)), AcquireCall(owner, seconds, later)).Some?
  {
  }

  /** What an accepted write leaves in the state row. */
  lemma WriteIsRead(s: Store, id: Identity, u: Update, now: int)
    requires Accepted(s, WriteCall(id, u, now))
    ensures var after := Step(s, WriteCall(id, u, now));
            && after.lease == s.lease && after.state.Some?
            && var row := after.state.value;
               && row.name == u.name && row.token == id.token && row.heartbeatAt == now && row.dueAt == u.dueAt
               && row.error == u.error
               && (u.slot.Some? ==> row.slot == u.slot && row.tickAt == Some(now))
               && (u.slot.None? ==>
                     && row.slot == (if s.state.Some? then s.state.value.slot else None)
                     && row.tickAt == if s.state.Some? then s.state.value.tickAt else None)
               && (u.completed ==> row.completedAt == Some(now) && row.counts == u.counts)
               && (!u.completed ==>
                     && row.completedAt == (if s.state.Some? then s.state.value.completedAt else None)
                     && row.counts == if s.state.Some? then s.state.value.counts else (0, 0, 0, 0))
  {
  }

  /**
   * Writes of different identities never interleave: a write accepted after another's
   * is the same holder's or a later one's.
   */
  lemma WritersTakeTurns(calls: seq<Call>, i: nat, j: nat)
    requires i < j < |calls| && calls[i].WriteCall? && calls[j].WriteCall?
    requires Accepted(Run(EMPTY, calls[..i]), calls[i]) && Accepted(Run(EMPTY, calls[..j]), calls[j])
    ensures calls[i].id == calls[j].id || calls[i].id.token < calls[j].id.token
  {
    hide Step, Run;
    RunKeeps(EMPTY, calls[..i]);
    RunKeeps(Run(EMPTY, calls[..i]), calls[i..j]);
    RunSplits(EMPTY, calls[..i], calls[i..j]);
    assert calls[..j] == calls[..i] + calls[i..j];
  }

  /** In every run the state row's token never falls and never passes the lease's. */
  lemma StateTokenFollows(calls: seq<Call>, more: seq<Call>)
    ensures StateToken(Run(EMPTY, calls)) <= StateToken(Run(EMPTY, calls + more)) <= Token(Run(EMPTY, calls + more))
  {
    hide Run;
    RunKeeps(EMPTY, calls);
    RunKeeps(Run(EMPTY, calls), more);
    RunSplits(EMPTY, calls, more);
  }

  // ---------------------------------------------------------------- the tables

  class SchedulerTables {
    var lease: Option<Lease>
    var state: Option<SchedulerState>

    ghost function Model(): Store
      reads this
    {
      Store(lease, state)
    }

    constructor ()
      ensures Model() == EMPTY
    {
      lease, state := None, None;
    }

    method AcquireSchedulerLease(owner: string, seconds: int, now: int) returns (id: Option<Identity>)
      requires Fenced(Model())
      modifies `lease
      ensures Fenced(Model()) && (Model(), id) == Acquire(old(Model()), owner, seconds, now)
      ensures id.Some? ==> id.value.token == Token(old(Model())) + 1
    {
      if lease.Some? && lease.value.expiresAt > now && lease.value.owner != owner {
        return None;
      }
      if lease.None? {
        lease := Some(Lease(owner, 1, now + seconds, 1));
      } else {
        lease := Some(Lease(owner, lease.value.token + 1, now + seconds, lease.value.version + 1));
      }
      id := Some(Identity(owner, lease.value.token));
    }

    method RenewSchedulerLease(id: Identity, seconds: int, now: int) returns (ok: bool)
      requires Fenced(Model())
      modifies this
      ensures Fenced(Model()) && (Model(), ok) == Renew(old(Model()), id, seconds, now)
    {
      if lease.None? || lease.value.owner != id.owner || lease.value.token != id.token || lease.value.expiresAt <= now {
        return false;
      }
      lease := Some(lease.value.(expiresAt := now + seconds, version := lease.value.version + 1));
      if state.Some? && state.value.token == id.token {
        state := Some(state.value.(heartbeatAt := now));
      }
      return true;
    }

    method UpdateSchedulerState(id: Identity, u: Update, now: int) returns (ok: bool)
      requires Fenced(Model())
      modifies `state
      ensures Fenced(Model()) && (Model(), ok) == WriteState(old(Model()), id, u, now)
    {
      if lease.None? || lease.value.owner != id.owner || lease.value.token != id.token || lease.value.expiresAt <= now {
        return false;
      }
      if state.None? {
        state := Some(SchedulerState(u.name, id.token, now, None, None, None, None, (0, 0, 0, 0), None));
      }
      var row := state.value.(name := u.name, token := id.token, heartbeatAt := now, dueAt := u.dueAt,
                              error := u.error);
      if u.slot.Some? {
        row := row.(slot := u.slot, tickAt := Some(now));
      }
      if u.completed {
        row := row.(completedAt := Some(now), counts := u.counts);
      }
      state := Some(row);
      return true;
    }

    method ReleaseSchedulerLease(id: Identity, now: int) returns (ok: bool)
      requires Fenced(Model())
      modifies this
      ensures Fenced(Model()) && (Model(), ok) == Release(old(Model()), id, now)
    {
      if lease.None? || lease.value.owner != id.owner || lease.value.token != id.token {
        return false;
      }
      if state.Some? && state.value.token == id.token {
        state := Some(state.value.(name := "STOPPED", heartbeatAt := now));
      }
      lease := Some(lease.value.(expiresAt := now, version := lease.value.version + 1));
      return true;
    }
  }
}
