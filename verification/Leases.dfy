/** How long a lease holds, and what a finished call leaves in the row, in either store. */
module Leases {
  import opened Core
  import opened Tasks
  import opened MemoryTasks
  import opened LeaseTable
  import opened Fencing

  /** The task runs under this token. */
  predicate RunsUnder(ts: Table, id: Id, token: Token) {
    id in ts && ts[id].state.Running? && ts[id].lease.Some? && ts[id].lease.value.token == token
  }

  /** A heartbeat that answered Ok holds the task until the time it names: a sweep leaves
      it to its worker exactly before that. */
  lemma HeartbeatHolds(store: Backend, db: Db, id: Id, token: Token, until: int, now: int)
    requires Exec(store, db, Heartbeat(id, token, until)).1 == Ok
    ensures var beaten := Exec(store, db, Heartbeat(id, token, until)).0;
      var swept := Exec(store, beaten, ReleaseExpired(now)).0;
      && RunsUnder(beaten.tasks, id, token)
      && (RunsUnder(swept.tasks, id, token) <==> now < until)
      && id in swept.tasks && (now >= until ==> swept.tasks[id].state.Queued?)
  {
  }

  /** A claim holds the task for the lease it asked for, a minute if it asked for none. */
  lemma ClaimHolds(store: Backend, db: Db, op: Op, now: int)
    requires op.Claim? && Exec(store, db, op).1.Claimed?
    ensures var (claimed, r) := Exec(store, db, op);
      var swept := Exec(store, claimed, ReleaseExpired(now)).0;
      && RunsUnder(claimed.tasks, r.id, op.token)
      && (RunsUnder(swept.tasks, r.id, op.token) <==> now < op.now + if op.leaseFor <= 0 then 60 else op.leaseFor)
  {
  }

  /** Running under the token, with the lease as it was set. */
  predicate Held(ts: Table, id: Id, token: Token, until: int) {
    RunsUnder(ts, id, token) && ts[id].lease.value.expires == until
  }

  /** The call is not the holder's own, and reads a clock before `until`. */
  predicate Foreign(op: Op, id: Id, token: Token, until: int) {
    match op
    case Create(x, _, _, _, _, _) => x != id
    case Claim(_, _, _, _, now, _) => now < until
    case ReleaseExpired(now) => now < until
    case Heartbeat(x, t, _) => x != id || t != token
    case Complete(x, t, _, _) => x != id || t != token
    case Fail(x, t, _, _, _) => x != id || t != token
    case Cancel(_, _) => true
  }

  lemma StepKeepsHeld(store: Backend, db: Db, op: Op, id: Id, token: Token, until: int)
    requires Held(db.tasks, id, token, until) && Foreign(op, id, token, until)
    ensures Held(Exec(store, db, op).0.tasks, id, token, until)
  {
    if op.Claim? {
      ClaimKeepsHeld(store, db, op, id, token, until);
    }
  }

  lemma ClaimKeepsHeld(store: Backend, db: Db, op: Op, id: Id, token: Token, until: int)
    requires Held(db.tasks, id, token, until) && op.Claim? && op.now < until
    ensures Held(Exec(store, db, op).0.tasks, id, token, until)
  {
    var live := ReleaseAll(db.tasks, op.now);
    assert live[id] == db.tasks[id];
    if store.Memory? && Exec(store, db, op).1.Claimed? {
      assert Candidate(live, op.kinds, Exec(store, db, op).1.id);
    }
  }

  ghost function ExecRun(store: Backend, db: Db, ops: seq<Op>): Db
    decreases |ops|
  {
    if ops == [] then db else ExecRun(store, Exec(store, db, ops[0]).0, ops[1..])
  }

  /** Over runs: until then no sweep, claim or other worker's call takes the task from its
      holder, whatever the other calls are and in whatever order they come. */
  lemma {:induction false} NobodyTakesItBefore(store: Backend, db: Db, ops: seq<Op>, id: Id, token: Token, until: int)
    requires Held(db.tasks, id, token, until)
    requires forall i :: 0 <= i < |ops| ==> Foreign(ops[i], id, token, until)
    ensures Held(ExecRun(store, db, ops).tasks, id, token, until)
    decreases |ops|
  {
    if ops != [] {
      assert Foreign(ops[0], id, token, until);
      StepKeepsHeld(store, db, ops[0], id, token, until);
      NobodyTakesItBefore(store, Exec(store, db, ops[0]).0, ops[1..], id, token, until);
    }
  }

  /** And after a heartbeat that means: the worker that beat can finish the task. */
  lemma BeatenTaskCanFinish(store: Backend, db: Db, ops: seq<Op>, id: Id, token: Token, until: int, cause: Option<string>, at: int)
    requires Exec(store, db, Heartbeat(id, token, until)).1 == Ok
    requires forall i :: 0 <= i < |ops| ==> Foreign(ops[i], id, token, until)
    ensures var later := ExecRun(store, Exec(store, db, Heartbeat(id, token, until)).0, ops);
      Exec(store, later, Fail(id, token, cause, true, at)).1 == Ok
  {
    NobodyTakesItBefore(store, Exec(store, db, Heartbeat(id, token, until)).0, ops, id, token, until);
  }

  // ---------------------------------------------------------------- what the row says afterwards

  /** What no call ever changes in a row. */
  predicate SameTask(t: Task, t': Task) {
    && t'.tenant == t.tenant && t'.requestId == t.requestId && t'.kind == t.kind
    && t'.partition == t.partition && t'.created == t.created
  }

  /** A task keeps what it was created with, through every call of either store. */
  lemma IdentityStays(store: Backend, db: Db, op: Op, id: Id)
    requires id in db.tasks && (op.Create? ==> op.id != id)
    ensures var ts := Exec(store, db, op).0.tasks; id in ts && SameTask(db.tasks[id], ts[id])
  {
    if op.Claim? {
      ClaimKeepsIdentity(store, db, op, id);
    }
  }

  lemma ClaimKeepsIdentity(store: Backend, db: Db, op: Op, id: Id)
    requires id in db.tasks && op.Claim?
    ensures var ts := Exec(store, db, op).0.tasks; id in ts && SameTask(db.tasks[id], ts[id])
  {
    assert SameTask(db.tasks[id], ReleaseAll(db.tasks, op.now)[id]);
  }

  /** What was submitted is what waits: a new task is queued, unclaimed, with its own
      kind, partition and time. */
  lemma CreatedWaits(store: Backend, db: Db, op: Op)
    requires op.Create? && Exec(store, db, op).1 == Ok
    ensures var ts := Exec(store, db, op).0.tasks;
      && op.id in ts
      && var t := ts[op.id];
         && t.state.Queued? && t.attempts == 0 && t.lease.None? && t.started.None? && t.finished.None?
         && t.tenant == op.tenant && t.requestId == op.requestId
         && t.kind == op.kind && t.partition == op.partition && t.created == op.created
  {
  }

  /** A completion leaves its result and nothing of an earlier failure; the SQL column
      holds an empty object for an empty result. */
  lemma CompletedHolds(store: Backend, db: Db, id: Id, token: Token, result: string, at: int)
    requires Exec(store, db, Complete(id, token, result, at)).1 == Ok
    ensures var ts := Exec(store, db, Complete(id, token, result, at)).0.tasks;
      && id in ts
      && var t := ts[id];
         && t.state.Succeeded? && t.error.None? && t.lease.None? && t.finished == Some(at)
         && (store.Memory? || result != "" ==> t.result == result) && (store.Sql? && result == "" ==> t.result == "{}")
  {
  }

  /** A failure leaves its cause; requeued, the task waits as if never started, and a
      cancelled one has ended without running. */
  lemma FailedHolds(store: Backend, db: Db, id: Id, token: Token, cause: Option<string>, requeue: bool, at: int)
    requires Exec(store, db, Fail(id, token, cause, requeue, at)).1 == Ok
    ensures var ts := Exec(store, db, Fail(id, token, cause, requeue, at)).0.tasks;
      && id in ts
      && var t := ts[id];
         && t.error == cause && t.lease.None? && id in db.tasks && t.attempts == db.tasks[id].attempts
         && (requeue ==> t.state.Queued? && t.started.None?) && (!requeue ==> t.state.Failed? && t.finished == Some(at))
  {
  }

  lemma CancelledHolds(store: Backend, db: Db, id: Id, at: int)
    requires Exec(store, db, Cancel(id, at)).1 == Ok
    ensures var ts := Exec(store, db, Cancel(id, at)).0.tasks;
      && id in db.tasks && db.tasks[id].state.Queued?
      && id in ts && ts[id].state.Cancelled? && ts[id].finished == Some(at)
  {
  }

  /** Which failures a handle gives another try: those below the attempt limit whose code
      is none of the six that no retry can help. */
  lemma HandleFailDecides(s: Sys, max: nat, id: Id, token: Token, code: Option<string>, at: int)
    requires Reachable(s, max) && max > 0 && RunsUnder(s.db.tasks, id, token) && !TooEarly(s.db.tasks[id], at)
    ensures var ts := QueueStep(s, HandleFail(id, token, code, at), max).db.tasks;
      id in ts && ts[id].state ==
        if s.db.tasks[id].attempts < max
           && code != Some("unauthorized_paths") && code != Some("unknown_repository") && code != Some("stale_sync_point")
           && code != Some("unknown_sync_point") && code != Some("patch_too_large") && code != Some("unsupported_version")
        then Queued else Failed
  {
    HandleSawAttempt(s, max, id, token);
    var requeue := s.db.tasks[id].attempts < max && !(code.Some? && IsPermanent(code.value));
    FailEnds(s, id, token, code, requeue, at);
  }

  lemma HandleSawAttempt(s: Sys, max: nat, id: Id, token: Token)
    requires Reachable(s, max) && max > 0 && RunsUnder(s.db.tasks, id, token)
    ensures id in s.hist && Attempt(s.hist[id], token) == s.db.tasks[id].attempts
  {
    ReachableInv(s, max);
    assert RowFits(s.db.tasks[id], s.hist[id], max);
    AttemptOfOpen(s, id, max);
  }

  lemma FailEnds(s: Sys, id: Id, token: Token, code: Option<string>, requeue: bool, at: int)
    requires RunsUnder(s.db.tasks, id, token) && !TooEarly(s.db.tasks[id], at)
    ensures var ts := StoreStep(s, Fail(id, token, code, requeue, at), true).db.tasks;
      id in ts && ts[id].state == if requeue then Queued else Failed
  {
  }
}
