/** The SQL task store: exclusion is a unique row in partition_leases. One
    operation is one transaction; a claim's candidate read may be stale. */
module LeaseTable {
  import opened Core
  import opened Tasks
  import opened MemoryTasks

  datatype Branch = Branch(tenant: string, partition: string)

  datatype LeaseRow = LeaseRow(task: Id, acquired: int)

  datatype Db = Db(tasks: Table, leases: map<Branch, LeaseRow>)

  const EMPTY := Db(map[], map[])

  function BranchOf(t: Task): Branch {
    Branch(t.tenant, t.partition)
  }

  // ---------------------------------------------------------------- transactions

  /** releaseExpired: the lapsed tasks and their lease rows, together. */
  function SqlRelease(db: Db, now: int): Db {
    Db(ReleaseAll(db.tasks, now),
       map k | k in db.leases
               && !(db.leases[k].task in db.tasks && Expired(db.tasks[db.leases[k].task], now))
         :: db.leases[k])
  }

  predicate RowConflict(leases: map<Branch, LeaseRow>, key: Branch, id: Id) {
    key in leases || exists k :: k in leases && leases[k].task == id
  }

  /** One claim transaction. Whatever the candidate read said, the guarded insert
      and the guarded update decide; anything short of a commit rolls back. */
  function SqlClaim(db: Db, candidate: Option<Id>, holder: string, token: Token, now: int, leaseFor: int): (Db, Outcome) {
    var live := SqlRelease(db, now);
    if candidate.None? then (db, NoTask)
    else
      var id := candidate.value;
      if id !in live.tasks then (db, LostRace)
      else
        var t := live.tasks[id];
        if t.partition != "" && RowConflict(live.leases, BranchOf(t), id) then (db, LostRace)
        else if !t.state.Queued? then (db, LostRace)
        else
          (Db(live.tasks[id := ToClaimed(t, holder, token, now, leaseFor)],
              if t.partition == "" then live.leases else live.leases[BranchOf(t) := LeaseRow(id, now)]),
           Claimed(id))
  }

  /** Why a guarded update matched no row. */
  function SqlMiss(db: Db, id: Id): Outcome {
    if id in db.tasks then LeaseLost else NotFound
  }

  function WithoutTask(leases: map<Branch, LeaseRow>, id: Id): map<Branch, LeaseRow> {
    map k | k in leases && leases[k].task != id :: leases[k]
  }

  /** A transition out of running, with the branch released in the same transaction. */
  function SqlFinish(db: Db, id: Id, token: Token, row: Task, finishes: bool, at: int): (Db, Outcome) {
    if !(id in db.tasks && HoldsLease(db.tasks[id], token)) then (db, SqlMiss(db, id))
    else if finishes && TooEarly(db.tasks[id], at) then (db, Constraint)
    else (Db(db.tasks[id := row], WithoutTask(db.leases, id)), Ok)
  }

  function Stored(result: string): string {
    if result == "" then "{}" else result
  }

  function SqlComplete(db: Db, id: Id, token: Token, result: string, at: int): (Db, Outcome) {
    if id !in db.tasks then (db, NotFound)
    else SqlFinish(db, id, token, ToSucceeded(db.tasks[id], Stored(result), at), true, at)
  }

  function SqlFail(db: Db, id: Id, token: Token, cause: Option<string>, requeue: bool, at: int): (Db, Outcome) {
    if id !in db.tasks then (db, NotFound)
    else if requeue then SqlFinish(db, id, token, ToRequeued(db.tasks[id], cause, at), false, at)
    else SqlFinish(db, id, token, ToFailed(db.tasks[id], cause, at), true, at)
  }

  function SqlHeartbeat(db: Db, id: Id, token: Token, until: int): (Db, Outcome) {
    if !(id in db.tasks && HoldsLease(db.tasks[id], token)) then (db, SqlMiss(db, id))
    else (db.(tasks := db.tasks[id := ToBeaten(db.tasks[id], until)]), Ok)
  }

  function SqlCancel(db: Db, id: Id, at: int): (Db, Outcome) {
    if id !in db.tasks then (db, NotFound)
    else if !db.tasks[id].state.Queued? then (db, Conflict)
    else if TooEarly(db.tasks[id], at) then (db, Constraint)
    else (db.(tasks := db.tasks[id := ToCancelled(db.tasks[id], at)]), Ok)
  }

  ghost function SqlCreate(db: Db, id: Id, tenant: string, requestId: string, kind: Kind, partition: string, created: int): (Db, Outcome) {
    if Duplicated(db.tasks, tenant, requestId) then (db, Existing(Repeated(db.tasks, tenant, requestId)))
    else
      (db.(tasks := db.tasks[id := NewTask(tenant, requestId, kind, partition, created)]), Ok)
  }

  ghost function SqlExec(db: Db, op: Op): (Db, Outcome) {
    match op
    case Create(id, tenant, requestId, kind, partition, created) =>
      SqlCreate(db, id, tenant, requestId, kind, partition, created)
    case Claim(candidate, _, holder, token, now, leaseFor) => SqlClaim(db, candidate, holder, token, now, leaseFor)
    case Heartbeat(id, token, until) => SqlHeartbeat(db, id, token, until)
    case Complete(id, token, result, at) => SqlComplete(db, id, token, result, at)
    case Fail(id, token, cause, requeue, at) => SqlFail(db, id, token, cause, requeue, at)
    case ReleaseExpired(now) => (SqlRelease(db, now), Ok)
    case Cancel(id, at) => SqlCancel(db, id, at)
  }

  ghost function SqlRun(db: Db, ops: seq<Op>): Db
    decreases |ops|
  {
    if ops == [] then db else SqlRun(SqlExec(db, ops[0]).0, ops[1..])
  }

  /** The one assumption on a run: the database generates fresh task ids. */
  ghost predicate FreshIds(db: Db, ops: seq<Op>)
    decreases |ops|
  {
    ops != [] ==>
      && (ops[0].Create? ==> ops[0].id !in db.tasks)
      && FreshIds(SqlExec(db, ops[0]).0, ops[1..])
  }

  // ---------------------------------------------------------------- invariant

  ghost predicate RowOk(t: Task) {
    && (t.state.Running? <==> t.lease.Some?)
    && (t.state.Queued? ==> t.started.None?)
    && (t.state.Running? ==> t.started.Some?)
    && (!Terminal(t.state) ==> t.finished.None?)
  }

  ghost predicate LeaseHeld(db: Db, k: Branch)
    requires k in db.leases
  {
    var id := db.leases[k].task;
    id in db.tasks && db.tasks[id].state.Running? && BranchOf(db.tasks[id]) == k && k.partition != ""
  }

  ghost predicate OwnsBranch(db: Db, id: Id)
    requires id in db.tasks
  {
    var k := BranchOf(db.tasks[id]);
    k in db.leases && db.leases[k].task == id
  }

  /** One lease row for each running partitioned task, and no other row. */
  ghost predicate Inv(db: Db) {
    && (forall id :: id in db.tasks ==> RowOk(db.tasks[id]))
    && (forall k :: k in db.leases ==> LeaseHeld(db, k))
    && (forall id :: id in db.tasks && db.tasks[id].state.Running? && db.tasks[id].partition != "" ==> OwnsBranch(db, id))
  }

  lemma ReleaseKeepsInv(db: Db, now: int)
    requires Inv(db)
    ensures Inv(SqlRelease(db, now))
  {
    var live := SqlRelease(db, now);
    forall k | k in live.leases ensures LeaseHeld(live, k) {
      assert LeaseHeld(db, k);
    }
    forall id | id in live.tasks && live.tasks[id].state.Running? && live.tasks[id].partition != ""
      ensures OwnsBranch(live, id)
    {
      assert OwnsBranch(db, id);
    }
  }

  lemma ClaimKeepsInv(db: Db, candidate: Option<Id>, holder: string, token: Token, now: int, leaseFor: int)
    requires Inv(db)
    ensures Inv(SqlClaim(db, candidate, holder, token, now, leaseFor).0)
  {
    ReleaseKeepsInv(db, now);
    var live := SqlRelease(db, now);
    var (db', r) := SqlClaim(db, candidate, holder, token, now, leaseFor);
    if r.Claimed? {
      forall k | k in db'.leases ensures LeaseHeld(db', k) {
        if k in live.leases { assert LeaseHeld(live, k); }
      }
      forall id | id in db'.tasks && db'.tasks[id].state.Running? && db'.tasks[id].partition != ""
        ensures OwnsBranch(db', id)
      {
        if id != r.id { assert OwnsBranch(live, id); }
      }
    }
  }

  lemma FinishKeepsInv(db: Db, id: Id, token: Token, row: Task, finishes: bool, at: int)
    requires Inv(db) && RowOk(row) && !row.state.Running?
    ensures Inv(SqlFinish(db, id, token, row, finishes, at).0)
  {
    var (db', r) := SqlFinish(db, id, token, row, finishes, at);
    if r == Ok {
      forall k | k in db'.leases ensures LeaseHeld(db', k) {
        assert LeaseHeld(db, k);
      }
      forall x | x in db'.tasks && db'.tasks[x].state.Running? && db'.tasks[x].partition != ""
        ensures OwnsBranch(db', x)
      {
        assert OwnsBranch(db, x);
      }
    }
  }

  /** A row rewritten without leaving or entering running, on the same branch. */
  lemma RewriteKeepsInv(db: Db, id: Id, row: Task)
    requires Inv(db) && RowOk(row)
    requires id in db.tasks ==> BranchOf(row) == BranchOf(db.tasks[id]) && row.state.Running? == db.tasks[id].state.Running?
    requires id !in db.tasks ==> !row.state.Running?
    ensures Inv(db.(tasks := db.tasks[id := row]))
  {
    var db' := db.(tasks := db.tasks[id := row]);
    forall k | k in db'.leases ensures LeaseHeld(db', k) {
      assert LeaseHeld(db, k);
    }
    forall x | x in db'.tasks && db'.tasks[x].state.Running? && db'.tasks[x].partition != ""
      ensures OwnsBranch(db', x)
    {
      assert OwnsBranch(db, x);
    }
  }

  lemma ExecKeepsInv(db: Db, op: Op)
    requires Inv(db) && (op.Create? ==> op.id !in db.tasks)
    ensures Inv(SqlExec(db, op).0)
  {
    match op
    case Create(id, tenant, requestId, kind, partition, created) =>
      RewriteKeepsInv(db, id, NewTask(tenant, requestId, kind, partition, created));
    case Claim(candidate, _, holder, token, now, leaseFor) =>
      ClaimKeepsInv(db, candidate, holder, token, now, leaseFor);
    case Heartbeat(id, token, until) =>
      if id in db.tasks && HoldsLease(db.tasks[id], token) {
        RewriteKeepsInv(db, id, ToBeaten(db.tasks[id], until));
      }
    case Complete(id, token, result, at) =>
      if id in db.tasks && HoldsLease(db.tasks[id], token) {
        FinishKeepsInv(db, id, token, ToSucceeded(db.tasks[id], Stored(result), at), true, at);
      }
    case Fail(id, token, cause, requeue, at) =>
      if id in db.tasks && HoldsLease(db.tasks[id], token) {
        FinishKeepsInv(db, id, token, ToRequeued(db.tasks[id], cause, at), false, at);
        FinishKeepsInv(db, id, token, ToFailed(db.tasks[id], cause, at), true, at);
      }
    case ReleaseExpired(now) =>
      ReleaseKeepsInv(db, now);
    case Cancel(id, at) =>
      if id in db.tasks && db.tasks[id].state.Queued? {
        RewriteKeepsInv(db, id, ToCancelled(db.tasks[id], at));
      }
  }

  lemma {:induction false} RunKeepsInv(db: Db, ops: seq<Op>)
    requires Inv(db) && FreshIds(db, ops)
    ensures Inv(SqlRun(db, ops))
    decreases |ops|
  {
    if ops != [] {
      ExecKeepsInv(db, ops[0]);
      RunKeepsInv(SqlExec(db, ops[0]).0, ops[1..]);
    }
  }

  /** The rows of partition_leases and the running partitioned tasks correspond one
      to one, in every reachable state and whatever the candidate reads returned. */
  lemma LeasesAreTheRunningTasks(ops: seq<Op>, k: Branch)
    requires FreshIds(EMPTY, ops)
    ensures var db := SqlRun(EMPTY, ops);
      && (k in db.leases <==>
            k.partition != "" && exists id :: id in db.tasks && db.tasks[id].state.Running? && BranchOf(db.tasks[id]) == k)
      && (forall id :: id in db.tasks && db.tasks[id].state.Running? && BranchOf(db.tasks[id]) == k && k.partition != ""
            ==> k in db.leases && db.leases[k].task == id)
  {
    RunKeepsInv(EMPTY, ops);
    var db := SqlRun(EMPTY, ops);
    if k in db.leases {
      assert LeaseHeld(db, k);
    }
    forall id | id in db.tasks && db.tasks[id].state.Running? && BranchOf(db.tasks[id]) == k && k.partition != ""
      ensures k in db.leases && db.leases[k].task == id
    {
      assert OwnsBranch(db, id);
    }
  }

  /** Two workers never run two tasks of one branch. */
  lemma AtMostOneRunning(ops: seq<Op>, a: Id, b: Id)
    requires FreshIds(EMPTY, ops)
    requires var ts := SqlRun(EMPTY, ops).tasks;
      && a in ts && b in ts && ts[a].state.Running? && ts[b].state.Running?
      && BranchOf(ts[a]) == BranchOf(ts[b]) && ts[a].partition != ""
    ensures a == b
  {
    LeasesAreTheRunningTasks(ops, BranchOf(SqlRun(EMPTY, ops).tasks[a]));
  }

  /** No branch is left blocked: in every reachable state, a claim that read this task
      takes it exactly when, lapsed leases released, it is queued and, if it has a branch,
      nothing runs on it. */
  lemma ClaimableExactly(ops: seq<Op>, id: Id, holder: string, token: Token, now: int, leaseFor: int)
    requires FreshIds(EMPTY, ops)
    ensures var ts := ReleaseAll(SqlRun(EMPTY, ops).tasks, now);
      SqlClaim(SqlRun(EMPTY, ops), Some(id), holder, token, now, leaseFor).1 == Claimed(id) <==>
        && id in ts && ts[id].state.Queued?
        && (ts[id].partition != "" ==> forall x :: x in ts && ts[x].state.Running? ==> BranchOf(ts[x]) != BranchOf(ts[id]))
  {
    RunKeepsInv(EMPTY, ops);
    var db := SqlRun(EMPTY, ops);
    ReleaseKeepsInv(db, now);
    var live := SqlRelease(db, now);
    if id in live.tasks && live.tasks[id].state.Queued? && live.tasks[id].partition != "" {
      LeasedIffRunning(live, BranchOf(live.tasks[id]));
      forall k | k in live.leases ensures live.leases[k].task != id {
        assert LeaseHeld(live, k);
      }
    }
  }

  lemma LeasedIffRunning(db: Db, k: Branch)
    requires Inv(db) && k.partition != ""
    ensures k in db.leases <==> exists x :: x in db.tasks && db.tasks[x].state.Running? && BranchOf(db.tasks[x]) == k
  {
    if k in db.leases {
      assert LeaseHeld(db, k);
    }
    if x :| x in db.tasks && db.tasks[x].state.Running? && BranchOf(db.tasks[x]) == k {
      assert OwnsBranch(db, x);
    }
  }

  // ---------------------------------------------------------------- the claim's candidate and its retries

  /** What the LEFT JOIN leaves: queued, of a wanted kind, and on a branch nobody leases. */
  predicate Unleased(db: Db, kinds: set<Kind>, id: Id) {
    && id in db.tasks
    && db.tasks[id].state.Queued?
    && Wanted(kinds, db.tasks[id].kind)
    && (db.tasks[id].partition == "" || BranchOf(db.tasks[id]) !in db.leases)
  }

  ghost function UnleasedTasks(db: Db, kinds: set<Kind>): (c: set<Id>)
    ensures c <= db.tasks.Keys
  {
    set id | id in db.tasks && Unleased(db, kinds, id)
  }

  /** The candidate a read that is not stale returns. */
  ghost function FreshCandidate(db: Db, kinds: set<Kind>, now: int): Option<Id> {
    var live := SqlRelease(db, now);
    Head(live.tasks, UnleasedTasks(live, kinds))
  }

  const CLAIM_ATTEMPTS: nat := 5

  /** The retry loop around claim transactions, other workers' transactions
      committing before each attempt. */
  ghost function ClaimLoop(db: Db, i: nat, others: seq<seq<Op>>, tries: seq<Op>): (Db, Outcome)
    requires |others| == |tries| == CLAIM_ATTEMPTS && i <= CLAIM_ATTEMPTS
    decreases CLAIM_ATTEMPTS - i
  {
    if i == CLAIM_ATTEMPTS then (db, NoTask)
    else
      var (db', r) := SqlExec(SqlRun(db, others[i]), tries[i]);
      if r == LostRace then ClaimLoop(db', i + 1, others, tries) else (db', r)
  }

  /** What the attempts up to the deciding one contribute to the run. */
  ghost function ClaimLoopOps(db: Db, i: nat, others: seq<seq<Op>>, tries: seq<Op>): seq<Op>
    requires |others| == |tries| == CLAIM_ATTEMPTS && i <= CLAIM_ATTEMPTS
    decreases CLAIM_ATTEMPTS - i
  {
    if i == CLAIM_ATTEMPTS then []
    else
      var (db', r) := SqlExec(SqlRun(db, others[i]), tries[i]);
      others[i] + [tries[i]] + if r == LostRace then ClaimLoopOps(db', i + 1, others, tries) else []
  }

  lemma {:induction false} RunAppend(db: Db, a: seq<Op>, b: seq<Op>)
    ensures SqlRun(db, a + b) == SqlRun(SqlRun(db, a), b)
    decreases |a|
  {
    if a == [] {
      assert a + b == b;
    } else {
      assert (a + b)[1..] == a[1..] + b;
      RunAppend(SqlExec(db, a[0]).0, a[1..], b);
    }
  }

  /** A contended claim is a run like any other, so everything proved of runs holds
      of it; an attempt that lost its race left no trace. */
  lemma {:induction false} ClaimLoopIsARun(db: Db, i: nat, others: seq<seq<Op>>, tries: seq<Op>)
    requires |others| == |tries| == CLAIM_ATTEMPTS && i <= CLAIM_ATTEMPTS
    requires forall j :: 0 <= j < CLAIM_ATTEMPTS ==> tries[j].Claim?
    ensures ClaimLoop(db, i, others, tries).0 == SqlRun(db, ClaimLoopOps(db, i, others, tries))
    ensures ClaimLoop(db, i, others, tries).1.Claimed? || ClaimLoop(db, i, others, tries).1 == NoTask
    decreases CLAIM_ATTEMPTS - i
  {
    if i < CLAIM_ATTEMPTS {
      var (db', r) := SqlExec(SqlRun(db, others[i]), tries[i]);
      ClaimAnswers(SqlRun(db, others[i]), tries[i]);
      var rest := if r == LostRace then ClaimLoopOps(db', i + 1, others, tries) else [];
      RunThrough(db, others[i], tries[i], rest);
      if r == LostRace {
        ClaimLoopIsARun(db', i + 1, others, tries);
      }
    }
  }

  lemma ClaimAnswers(db: Db, op: Op)
    requires op.Claim?
    ensures var (db', r) := SqlExec(db, op);
      (r.Claimed? || r == NoTask || r == LostRace) && (r == LostRace ==> db' == db)
  {
  }

  lemma RunThrough(db: Db, a: seq<Op>, op: Op, rest: seq<Op>)
    ensures SqlRun(db, a + [op] + rest) == SqlRun(SqlExec(SqlRun(db, a), op).0, rest)
  {
    RunAppend(db, a, [op] + rest);
    assert a + [op] + rest == a + ([op] + rest);
    assert ([op] + rest)[1..] == rest;
  }

  // ---------------------------------------------------------------- the store

  class LeaseStore {
    var tasks: Table
    var leases: map<Branch, LeaseRow>

    ghost function State(): Db
      reads this
    {
      Db(tasks, leases)
    }

    constructor ()
      ensures State() == EMPTY
    {
      tasks, leases := map[], map[];
    }

    /** Deletes the lease rows of lapsed tasks, then updates the tasks. */
    method ReleaseExpired(now: int)
      modifies this
      ensures State() == SqlRelease(old(State()), now)
    {
      leases := map k | k in leases && !(leases[k].task in tasks && Expired(tasks[leases[k].task], now)) :: leases[k];
      tasks := map id | id in tasks :: if Expired(tasks[id], now) then ToReleased(tasks[id], now) else tasks[id];
    }

    /** SELECT ... ORDER BY created_at, id LIMIT 1. */
    method SelectCandidate(kinds: set<Kind>) returns (candidate: Option<Id>)
      ensures candidate == Head(tasks, UnleasedTasks(State(), kinds))
    {
      candidate := None;
      var left := tasks.Keys;
      ghost var found: set<Id> := {};
      while left != {}
        invariant left <= tasks.Keys
        invariant found == set x | x in tasks && x !in left && Unleased(State(), kinds, x)
        invariant found <= tasks.Keys
        invariant if candidate.None? then found == {} else Oldest(tasks, found, candidate.value)
        decreases left
      {
        var x :| x in left;
        if tasks[x].state.Queued? && Wanted(kinds, tasks[x].kind)
           && (tasks[x].partition == "" || BranchOf(tasks[x]) !in leases) {
          found := found + {x};
          if candidate.None? || Earlier(tasks, x, candidate.value) {
            candidate := Some(x);
          }
        }
        left := left - {x};
      }
      assert found == UnleasedTasks(State(), kinds);
      if candidate.Some? {
        HeadIs(tasks, found, candidate.value);
      }
    }

    /** One claim transaction. `stale` is a read that other transactions overtook;
        without one the transaction reads for itself. */
    method ClaimOnce(stale: Option<Option<Id>>, kinds: set<Kind>, holder: string, token: Token, now: int, leaseFor: int) returns (r: Outcome)
      modifies this
      ensures var candidate := if stale.Some? then stale.value else FreshCandidate(old(State()), kinds, now);
        (State(), r) == SqlClaim(old(State()), candidate, holder, token, now, leaseFor)
    {
      var savedTasks, savedLeases := tasks, leases;   // what a rollback restores
      ReleaseExpired(now);
      var candidate: Option<Id>;
      if stale.Some? {
        candidate := stale.value;
      } else {
        candidate := SelectCandidate(kinds);
      }
      if candidate.None? {
        tasks, leases := savedTasks, savedLeases;
        return NoTask;
      }
      var id := candidate.value;
      if id !in tasks {
        tasks, leases := savedTasks, savedLeases;
        return LostRace;
      }
      var key := BranchOf(tasks[id]);
      if tasks[id].partition != "" {
        if RowConflict(leases, key, id) {
          tasks, leases := savedTasks, savedLeases;
          return LostRace;
        }
        leases := leases[key := LeaseRow(id, now)];
      }
      if !tasks[id].state.Queued? {
        tasks, leases := savedTasks, savedLeases;
        return LostRace;
      }
      tasks := tasks[id := ToClaimed(tasks[id], holder, token, now, leaseFor)];
      r := Claimed(id);
    }

    /** The bounded retry: `answers` and `tokens` are what each attempt's SELECT and
        token generator returned. */
    method Claim(answers: seq<Option<Id>>, tokens: seq<Token>, kinds: set<Kind>, holder: string, now: int, leaseFor: int) returns (r: Outcome)
      requires |answers| == |tokens| == CLAIM_ATTEMPTS
      modifies this
      ensures (State(), r) == ClaimLoop(old(State()), 0, seq(CLAIM_ATTEMPTS, _ => []),
        seq(CLAIM_ATTEMPTS, i requires 0 <= i < CLAIM_ATTEMPTS => Op.Claim(answers[i], kinds, holder, tokens[i], now, leaseFor)))
    {
      ghost var others: seq<seq<Op>> := seq(CLAIM_ATTEMPTS, _ => []);
      ghost var tries := seq(CLAIM_ATTEMPTS, i requires 0 <= i < CLAIM_ATTEMPTS => Op.Claim(answers[i], kinds, holder, tokens[i], now, leaseFor));
      for i := 0 to CLAIM_ATTEMPTS
        invariant ClaimLoop(State(), i, others, tries) == ClaimLoop(old(State()), 0, others, tries)
      {
        r := ClaimOnce(Some(answers[i]), kinds, holder, tokens[i], now, leaseFor);
        if r != LostRace {
          return;
        }
      }
      r := NoTask;
    }

    /** The lease row goes first, then the guarded update; a miss rolls both back. */
    method Finish(id: Id, token: Token, row: Task, finishes: bool, at: int) returns (r: Outcome)
      modifies this
      ensures (State(), r) == SqlFinish(old(State()), id, token, row, finishes, at)
    {
      var savedLeases := leases;
      leases := map k | k in leases && leases[k].task != id :: leases[k];
      if !(id in tasks && HoldsLease(tasks[id], token)) {
        leases := savedLeases;
        return if id in tasks then LeaseLost else NotFound;
      }
      if finishes && TooEarly(tasks[id], at) {
        leases := savedLeases;
        return Constraint;
      }
      tasks := tasks[id := row];
      r := Ok;
    }

    method Complete(id: Id, token: Token, result: string, at: int) returns (r: Outcome)
      modifies this
      ensures (State(), r) == SqlComplete(old(State()), id, token, result, at)
    {
      if id !in tasks { return NotFound; }
      r := Finish(id, token, ToSucceeded(tasks[id], Stored(result), at), true, at);
    }

    method Fail(id: Id, token: Token, cause: Option<string>, requeue: bool, at: int) returns (r: Outcome)
      modifies this
      ensures (State(), r) == SqlFail(old(State()), id, token, cause, requeue, at)
    {
      if id !in tasks { return NotFound; }
      if requeue {
        r := Finish(id, token, ToRequeued(tasks[id], cause, at), false, at);
      } else {
        r := Finish(id, token, ToFailed(tasks[id], cause, at), true, at);
      }
    }
  }
}
