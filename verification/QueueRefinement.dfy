/** The lease table refines the scan: transaction by transaction, and over runs. */
module QueueRefinement {
  import opened Core
  import opened Tasks
  import opened MemoryTasks
  import opened LeaseTable

  ghost predicate OneTenant(ts: Table, tenant: string) {
    forall id :: id in ts ==> ts[id].tenant == tenant
  }

  ghost predicate ForTenant(op: Op, tenant: string) {
    op.Create? ==> op.tenant == tenant
  }

  /** A claim whose candidate read is not stale. */
  ghost predicate ReadsFresh(db: Db, op: Op) {
    op.Claim? ==> op.candidate == FreshCandidate(db, op.kinds, op.now)
  }

  /** The transaction committed, and so may have changed the database. */
  predicate Committed(r: Outcome) {
    r == Ok || r.Claimed?
  }

  /** The memory-store call a SQL call answers to: only an empty result is stored differently. */
  function MemoryOp(op: Op): Op {
    if op.Complete? then op.(result := Stored(op.result)) else op
  }

  /** With one tenant, a branch is leased exactly when the scan finds it busy, so
      both claims choose among the same tasks. */
  lemma SameCandidates(db: Db, kinds: set<Kind>, tenant: string)
    requires Inv(db) && OneTenant(db.tasks, tenant)
    ensures UnleasedTasks(db, kinds) == Candidates(db.tasks, kinds)
  {
    forall id | id in db.tasks ensures Unleased(db, kinds, id) <==> Candidate(db.tasks, kinds, id) {
      var k := BranchOf(db.tasks[id]);
      if k in db.leases {
        assert LeaseHeld(db, k);
      }
      if k.partition != "" && Busy(db.tasks, k.partition) {
        var x :| x in db.tasks && db.tasks[x].state.Running? && db.tasks[x].partition == k.partition;
        assert OwnsBranch(db, x);
      }
    }
  }

  lemma ClaimSimulates(db: Db, op: Op, tenant: string)
    requires Inv(db) && OneTenant(db.tasks, tenant) && op.Claim? && ReadsFresh(db, op)
    ensures SqlExec(db, op).1 == MemExec(db.tasks, op).1
    ensures SqlExec(db, op).1.Claimed? || SqlExec(db, op).1 == NoTask
    ensures SqlExec(db, op).1.Claimed? ==> SqlExec(db, op).0.tasks == MemExec(db.tasks, op).0
    ensures SqlExec(db, op).1 == NoTask ==>
      SqlExec(db, op).0 == db && MemExec(db.tasks, op).0 == ReleaseAll(db.tasks, op.now)
  {
    var live := SqlRelease(db, op.now);
    ReleaseKeepsInv(db, op.now);
    assert OneTenant(live.tasks, tenant);
    SameCandidates(live, op.kinds, tenant);
    if op.candidate.Some? {
      var id := op.candidate.value;
      assert Unleased(live, op.kinds, id);
      forall k | k in live.leases ensures live.leases[k].task != id {
        assert LeaseHeld(live, k);
      }
    }
  }

  /** Every committed transaction does to the task table what one call of the
      memory store does; every other one leaves the database as it was. */
  lemma StepSimulates(db: Db, op: Op, tenant: string)
    requires Inv(db) && OneTenant(db.tasks, tenant) && ForTenant(op, tenant) && ReadsFresh(db, op)
    ensures Committed(SqlExec(db, op).1) ==>
      && SqlExec(db, op).1 == MemExec(db.tasks, MemoryOp(op)).1
      && SqlExec(db, op).0.tasks == MemExec(db.tasks, MemoryOp(op)).0
    ensures !Committed(SqlExec(db, op).1) ==> SqlExec(db, op).0 == db
    ensures OneTenant(SqlExec(db, op).0.tasks, tenant)
  {
    match op
    case Claim(_, _, _, _, _, _) => ClaimSimulates(db, op, tenant);
    case Create(_, _, _, _, _, _) => CreateSimulates(db, op, tenant);
    case _ => RowOpSimulates(db, op, tenant);
  }

  lemma CreateSimulates(db: Db, op: Op, tenant: string)
    requires OneTenant(db.tasks, tenant) && op.Create? && op.tenant == tenant
    ensures var (db', r), (ts', r') := SqlExec(db, op), MemExec(db.tasks, op);
      (if r == Ok then r' == Ok && db'.tasks == ts' else r.Existing? && db' == db) && OneTenant(db'.tasks, tenant)
  {
  }

  /** The operations on one row, and the sweep. */
  lemma RowOpSimulates(db: Db, op: Op, tenant: string)
    requires OneTenant(db.tasks, tenant) && !op.Create? && !op.Claim?
    ensures var (db', r), (ts', r') := SqlExec(db, op), MemExec(db.tasks, MemoryOp(op));
      (if r == Ok then r' == Ok && db'.tasks == ts' else !r.Claimed? && db' == db) && OneTenant(db'.tasks, tenant)
  {
  }

  ghost predicate FreshRun(db: Db, ops: seq<Op>, tenant: string)
    decreases |ops|
  {
    ops != [] ==>
      && ForTenant(ops[0], tenant) && ReadsFresh(db, ops[0])
      && FreshRun(SqlExec(db, ops[0]).0, ops[1..], tenant)
  }

  /** The memory-store calls behind a SQL run: one for each committed transaction. */
  ghost function MemoryOps(db: Db, ops: seq<Op>): seq<Op>
    decreases |ops|
  {
    if ops == [] then []
    else
      var (db', r) := SqlExec(db, ops[0]);
      (if Committed(r) then [MemoryOp(ops[0])] else []) + MemoryOps(db', ops[1..])
  }

  /** Whole runs: the task table of the lease-table store is the memory store's. */
  lemma {:induction false} RunSimulates(db: Db, ops: seq<Op>, tenant: string)
    requires Inv(db) && OneTenant(db.tasks, tenant)
    requires FreshIds(db, ops) && FreshRun(db, ops, tenant)
    ensures SqlRun(db, ops).tasks == MemRun(db.tasks, MemoryOps(db, ops))
    decreases |ops|
  {
    if ops != [] {
      var (db', r) := SqlExec(db, ops[0]);
      StepSimulates(db, ops[0], tenant);
      ExecKeepsInv(db, ops[0]);
      RunSimulates(db', ops[1..], tenant);
      var rest := MemoryOps(db', ops[1..]);
      if Committed(r) {
        assert ([MemoryOp(ops[0])] + rest)[1..] == rest;
      } else {
        assert [] + rest == rest;
      }
    }
  }

  /** Where the two stores do not answer alike, and nowhere else: an empty request id
      used twice, and a finish stamped before the start. */
  lemma AnswersDiffer(db: Db, op: Op, tenant: string)
    requires Inv(db) && OneTenant(db.tasks, tenant) && ForTenant(op, tenant) && ReadsFresh(db, op)
    ensures SqlExec(db, op).1 != MemExec(db.tasks, MemoryOp(op)).1 <==>
      match op
      case Create(_, tenant, requestId, _, _, _) => requestId == "" && Duplicated(db.tasks, tenant, "")
      case Complete(id, token, _, at) => id in db.tasks && HoldsLease(db.tasks[id], token) && TooEarly(db.tasks[id], at)
      case Fail(id, token, _, requeue, at) =>
        id in db.tasks && HoldsLease(db.tasks[id], token) && !requeue && TooEarly(db.tasks[id], at)
      case _ => false
  {
    if op.Claim? {
      ClaimSimulates(db, op, tenant);
    }
  }

  /** A claim that finds nothing rolls its releases back in SQL and keeps them in
      memory: the two task tables part exactly when some lease had lapsed. */
  lemma EmptyClaimDiffers(db: Db, op: Op, tenant: string)
    requires Inv(db) && OneTenant(db.tasks, tenant) && op.Claim? && ReadsFresh(db, op)
    requires UnleasedTasks(SqlRelease(db, op.now), op.kinds) == {}
    ensures SqlExec(db, op).1 == NoTask
    ensures SqlExec(db, op).0.tasks != MemExec(db.tasks, op).0
      <==> exists id :: id in db.tasks && Expired(db.tasks[id], op.now)
  {
    ClaimSimulates(db, op, tenant);
    var live := ReleaseAll(db.tasks, op.now);
    if id :| id in db.tasks && Expired(db.tasks[id], op.now) {
      assert live[id] != db.tasks[id];
    } else {
      assert live == db.tasks;
    }
  }

  // ---------------------------------------------------------------- the differences at an input

  /** One push, claimed at 5 with a lease until 15. */
  ghost const CLAIMED := ToClaimed(NewTask("t", "r", Push, "p", 0), "w", 1, 5, 10)

  ghost const ONE_RUNNING := Db(map[0 := CLAIMED], map[Branch("t", "p") := LeaseRow(0, 5)])

  ghost const TO_ONE_RUNNING := [Create(0, "t", "r", Push, "p", 0), Claim(Some(0), {}, "w", 1, 5, 10)]

  lemma OneRunningIsReached()
    ensures FreshIds(EMPTY, TO_ONE_RUNNING) && SqlRun(EMPTY, TO_ONE_RUNNING) == ONE_RUNNING
    ensures Inv(ONE_RUNNING) && OneTenant(ONE_RUNNING.tasks, "t")
  {
    var create, claim := TO_ONE_RUNNING[0], TO_ONE_RUNNING[1];
    var db := Db(map[0 := NewTask("t", "r", Push, "p", 0)], map[]);
    assert SqlExec(EMPTY, create).0 == db;
    assert SqlRelease(db, 5) == db;
    assert SqlExec(db, claim).0 == ONE_RUNNING;
    assert TO_ONE_RUNNING[1..] == [claim] && [claim][1..] == [];
    assert SqlRun(db, [claim]) == SqlRun(ONE_RUNNING, []);
    assert FreshIds(db, [claim]);
    RunKeepsInv(EMPTY, TO_ONE_RUNNING);
  }

  /** The lease has lapsed and a worker asks for pulls: the memory store puts the push
      back, the SQL store leaves it running. */
  lemma LapsedLeaseAndEmptyClaim()
    ensures var op := Claim(None, {Pull}, "w", 2, 20, 10);
      && ReadsFresh(ONE_RUNNING, op) && SqlExec(ONE_RUNNING, op).1 == NoTask
      && SqlExec(ONE_RUNNING, op).0.tasks == map[0 := CLAIMED]
      && MemExec(ONE_RUNNING.tasks, op).0 == map[0 := ToReleased(CLAIMED, 20)]
  {
    OneRunningIsReached();
    var op := Claim(None, {Pull}, "w", 2, 20, 10);
    var live := SqlRelease(ONE_RUNNING, 20);
    assert UnleasedTasks(live, {Pull}) == {};
    ClaimSimulates(ONE_RUNNING, op, "t");
    assert ReleaseAll(ONE_RUNNING.tasks, 20) == map[0 := ToReleased(CLAIMED, 20)];
  }

  /** A finish stamped 4 for a start at 5: both stores refuse the completion, with
      different errors; the failure only the SQL store refuses. */
  lemma FinishBeforeStart()
    ensures var complete, fail := Complete(0, 1, "", 4), Fail(0, 1, None, false, 4);
      && SqlExec(ONE_RUNNING, complete) == (ONE_RUNNING, Constraint)
      && MemExec(ONE_RUNNING.tasks, complete) == (ONE_RUNNING.tasks, Conflict)
      && SqlExec(ONE_RUNNING, fail) == (ONE_RUNNING, Constraint)
      && MemExec(ONE_RUNNING.tasks, fail) == (map[0 := ToFailed(CLAIMED, None, 4)], Ok)
  {
    assert TooEarly(CLAIMED, 4) && HoldsLease(CLAIMED, 1);
    assert map[0 := CLAIMED][0 := ToFailed(CLAIMED, None, 4)] == map[0 := ToFailed(CLAIMED, None, 4)];
  }

  /** A second task without a request id: the SQL store takes the first for it, the memory
      store adds it. */
  lemma EmptyRequestTwice()
    ensures var db, op := Db(map[0 := NewTask("t", "", Push, "p", 0)], map[]), Create(1, "t", "", Push, "p", 0);
      && SqlExec(EMPTY, Create(0, "t", "", Push, "p", 0)) == (db, Ok)
      && SqlExec(db, op) == (db, Existing(0)) && MemExec(db.tasks, op).1 == Ok
  {
    var db := Db(map[0 := NewTask("t", "", Push, "p", 0)], map[]);
    assert SqlExec(EMPTY, Create(0, "t", "", Push, "p", 0)).0 == db;
    assert 0 in db.tasks && SameRequest(db.tasks[0], "t", "");
    assert Duplicated(db.tasks, "t", "");
  }
}
