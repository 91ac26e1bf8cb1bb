/** The order the SQL store serves a branch in, and how a stale read breaks it. */
module LeaseOrder {
  import opened Core
  import opened Tasks
  import opened MemoryTasks
  import opened QueueOrder
  import opened LeaseTable

  lemma StepKeepsPushKinds(db: Db, op: Op)
    requires PartitionedArePushes(db.tasks) && Submitted(op)
    ensures PartitionedArePushes(SqlExec(db, op).0.tasks)
  {
  }

  lemma {:induction false} RunKeepsPushKinds(db: Db, ops: seq<Op>)
    requires PartitionedArePushes(db.tasks) && forall i :: 0 <= i < |ops| ==> Submitted(ops[i])
    ensures PartitionedArePushes(SqlRun(db, ops).tasks)
    decreases |ops|
  {
    if ops != [] {
      assert Submitted(ops[0]);
      StepKeepsPushKinds(db, ops[0]);
      RunKeepsPushKinds(SqlExec(db, ops[0]).0, ops[1..]);
    }
  }

  /** `other` was created before `id` on its branch. */
  ghost predicate Precedes(ts: Table, other: Id, id: Id) {
    && id in ts && other in ts && ts[id].partition != "" && BranchOf(ts[other]) == BranchOf(ts[id])
    && Earlier(ts, other, id)
  }

  /** Some earlier task of the branch has not ended. */
  ghost predicate Overtakes(ts: Table, id: Id) {
    exists other :: Precedes(ts, other, id) && !Terminal(ts[other].state)
  }

  ghost predicate WaitsBefore(ts: Table, id: Id) {
    exists other :: Precedes(ts, other, id) && ts[other].state.Queued?
  }

  /** Whatever the read returned, the claim overtakes exactly when, lapsed leases released,
      an earlier task of the branch is waiting: what runs is never overtaken. */
  lemma OvertakesIffWaiting(db: Db, op: Op)
    requires Inv(db) && op.Claim? && SqlExec(db, op).1.Claimed?
    ensures var (db', r) := SqlExec(db, op); Overtakes(db'.tasks, r.id) <==> WaitsBefore(ReleaseAll(db.tasks, op.now), r.id)
  {
    ReleaseKeepsInv(db, op.now);
    var live := SqlRelease(db, op.now);
    var (db', r) := SqlExec(db, op);
    forall other ensures Precedes(db'.tasks, other, r.id) <==> Precedes(live.tasks, other, r.id) {
    }
    forall other | Precedes(live.tasks, other, r.id)
      ensures !Terminal(db'.tasks[other].state) <==> live.tasks[other].state.Queued?
    {
      LeasedIffRunning(live, BranchOf(live.tasks[r.id]));
    }
  }

  /** With a fresh read the claim is in order: in every run of submitted tasks, when a task
      is claimed every earlier task of its branch has ended. */
  lemma FreshClaimIsFifo(ops: seq<Op>, op: Op)
    requires FreshIds(EMPTY, ops) && forall i :: 0 <= i < |ops| ==> Submitted(ops[i])
    requires op.Claim? && op.candidate == FreshCandidate(SqlRun(EMPTY, ops), op.kinds, op.now)
    requires SqlExec(SqlRun(EMPTY, ops), op).1.Claimed?
    ensures var (db', r) := SqlExec(SqlRun(EMPTY, ops), op); !Overtakes(db'.tasks, r.id)
  {
    var db := SqlRun(EMPTY, ops);
    RunKeepsInv(EMPTY, ops);
    RunKeepsPushKinds(EMPTY, ops);
    OvertakesIffWaiting(db, op);
    NothingBeforeTheHead(SqlRelease(db, op.now), op.kinds, op.candidate.value);
  }

  lemma NothingBeforeTheHead(live: Db, kinds: set<Kind>, id: Id)
    requires PartitionedArePushes(live.tasks) && Oldest(live.tasks, UnleasedTasks(live, kinds), id)
    ensures !WaitsBefore(live.tasks, id)
  {
    assert Unleased(live, kinds, id);
    forall other | Precedes(live.tasks, other, id) ensures !live.tasks[other].state.Queued? {
      assert live.tasks[other].kind == live.tasks[id].kind;
      assert other !in UnleasedTasks(live, kinds);
      assert !Unleased(live, kinds, other);
    }
  }

  /** A read that another worker's insert overtook: the candidate was the oldest when it
      was read, and the claim passes a task that was created before it. */
  lemma StaleReadOvertakes()
    ensures var late, early := Create(1, "t", "b", Push, "p", 5), Create(0, "t", "a", Push, "p", 0);
      var claim := Claim(Some(1), {}, "w", 1, 9, 10);
      var read := SqlRun(EMPTY, [late]);
      var db := SqlExec(read, early).0;
      && FreshCandidate(read, {}, 9) == Some(1)
      && SqlExec(db, claim).1 == Claimed(1) && Overtakes(SqlExec(db, claim).0.tasks, 1)
  {
    var late, early := Create(1, "t", "b", Push, "p", 5), Create(0, "t", "a", Push, "p", 0);
    var one, two := NewTask("t", "b", Push, "p", 5), NewTask("t", "a", Push, "p", 0);
    assert [late][1..] == [] && !Duplicated(EMPTY.tasks, "t", "b");
    assert SqlExec(EMPTY, late).0 == Db(map[1 := one], map[]);
    var read := SqlRun(EMPTY, [late]);
    assert SqlRun(Db(map[1 := one], map[]), []) == Db(map[1 := one], map[]);
    assert read == Db(map[1 := one], map[]);
    var live := SqlRelease(read, 9);
    assert live == read && Unleased(live, {}, 1);
    assert UnleasedTasks(live, {}) == {1};
    HeadIs(live.tasks, {1}, 1);
    assert "a"[0] != "b"[0];
    assert !Duplicated(read.tasks, "t", "a");
    var db := SqlExec(read, early).0;
    assert db.tasks == map[1 := one, 0 := two] && db.leases == map[];
    assert SqlRelease(db, 9) == db;
    var after := SqlExec(db, Claim(Some(1), {}, "w", 1, 9, 10)).0.tasks;
    assert Precedes(after, 0, 1) && after[0] == two;
  }
}
