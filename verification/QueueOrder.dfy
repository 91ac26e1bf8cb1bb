/** The order the memory store serves its queue in, step by step and over whole runs. */
module QueueOrder {
  import opened Collections
  import opened Core
  import opened Tasks
  import opened MemoryTasks

  // ---------------------------------------------------------------- what a claim takes

  /** The task could run now: it waits, is of a kind the worker takes, and nothing of its
      partition runs. */
  ghost predicate CouldRun(ts: Table, kinds: set<Kind>, id: Id) {
    && id in ts && ts[id].state.Queued? && (kinds == {} || ts[id].kind in kinds)
    && (ts[id].partition == "" || forall x :: x in ts && ts[x].partition == ts[id].partition ==> !ts[x].state.Running?)
  }

  /** A claim finds a task exactly when, lapsed leases released, one could run; and it is
      one created first, the one with the smallest id among those created together. */
  lemma ClaimTakesOldest(ts: Table, op: Op)
    requires op.Claim?
    ensures var live, r := MemExec(ts, ReleaseExpired(op.now)).0, MemExec(ts, op).1;
      && (r == NoTask <==> forall id :: !CouldRun(live, op.kinds, id))
      && (r != NoTask ==> r.Claimed? && CouldRun(live, op.kinds, r.id))
      && (r.Claimed? ==> forall other :: CouldRun(live, op.kinds, other) ==>
            live[r.id].created <= live[other].created && (live[r.id].created == live[other].created ==> r.id <= other))
  {
    var live := ReleaseAll(ts, op.now);
    forall id ensures CouldRun(live, op.kinds, id) <==> id in Candidates(live, op.kinds) {
      assert id in live && live[id].partition != "" ==> (Busy(live, live[id].partition) <==>
        exists x :: x in live && live[x].state.Running? && live[x].partition == live[id].partition);
    }
  }

  /** What does not wait, or has no branch to wait for, has nothing ahead. */
  lemma OnlyBranchesQueue(ts: Table, id: Id)
    requires id in ts && (!ts[id].state.Queued? || ts[id].partition == "")
    ensures Ahead(ts, id) == {}
  {
  }

  /** Position zero means next: nothing is ahead of a waiting task of a branch exactly when
      it could run now and nothing of its branch that could was created before it. */
  lemma PositionZeroMeansNext(ts: Table, id: Id)
    requires id in ts && ts[id].state.Queued? && ts[id].partition != ""
    ensures Ahead(ts, id) == {} <==>
      && CouldRun(ts, {}, id)
      && forall other :: CouldRun(ts, {}, other) && ts[other].partition == ts[id].partition ==>
           ts[id].created < ts[other].created || (ts[id].created == ts[other].created && id <= other)
  {
    if Ahead(ts, id) == {} {
      forall other | other in ts && other != id && ts[other].partition == ts[id].partition
        ensures !ts[other].state.Running? && (ts[other].state.Queued? ==> !Earlier(ts, other, id))
      {
        assert other !in Ahead(ts, id);
      }
    } else {
      var other :| other in Ahead(ts, id);
      assert CouldRun(ts, {}, id) && ts[other].state.Queued? ==> CouldRun(ts, {}, other);
    }
  }

  /** Branch names have no colon, so the key tells branches of all repositories apart. */
  lemma PartitionKeySeparates(repo: string, branch: string, repo': string, branch': string)
    requires ':' !in branch && ':' !in branch'
    ensures PartitionKey(Push, repo, branch) == PartitionKey(Push, repo', branch') <==> repo == repo' && branch == branch'
  {
    var k, k' := PartitionKey(Push, repo, branch), PartitionKey(Push, repo', branch');
    if k == k' {
      assert k[|repo|] == ':' && k[|repo'|] == ':';
      assert forall i :: |repo| < i < |k| ==> k[i] == branch[i - |repo| - 1];
      assert forall i :: |repo'| < i < |k| ==> k[i] == branch'[i - |repo'| - 1];
      assert |repo| == |repo'|;
      assert repo == k[..|repo|] && repo' == k[..|repo'|];
      assert branch == k[|repo| + 1..] && branch' == k[|repo'| + 1..];
    }
  }

  /** With a colon in a branch name two branches could share a key. */
  lemma ColonsCollide()
    ensures PartitionKey(Push, "a", "b:c") == PartitionKey(Push, "a:b", "c")
  {
  }

  // ---------------------------------------------------------------- queue order

  /** Tasks of one partition are all of one kind, which PartitionKey guarantees. */
  ghost predicate PartitionsShareKind(ts: Table) {
    forall a, b :: a in ts && b in ts && ts[a].partition == ts[b].partition != "" ==> ts[a].kind == ts[b].kind
  }

  /** A claim takes a partition in order: whatever was created before the claimed
      task in its partition has already ended. */
  lemma ClaimIsFifo(ts: Table, kinds: set<Kind>, holder: string, token: Token, now: int, leaseFor: int, other: Id)
    requires PartitionsShareKind(ts)
    requires MemClaim(ts, kinds, holder, token, now, leaseFor).1.Claimed?
    requires other in ts
    ensures var (ts', r) := MemClaim(ts, kinds, holder, token, now, leaseFor);
      && r.id in ts' && other in ts'
      && (ts'[other].partition == ts'[r.id].partition != "" && Earlier(ts', other, r.id)
          ==> Terminal(ts'[other].state) && ts'[other] == ts[other])
  {
    var live := ReleaseAll(ts, now);
    var id := MemClaim(ts, kinds, holder, token, now, leaseFor).1.id;
    assert Oldest(live, Candidates(live, kinds), id);
    assert Candidate(live, kinds, id);
    if live[other].partition == live[id].partition != "" && Earlier(live, other, id) {
      assert live[other].kind == live[id].kind;
      assert other !in Candidates(live, kinds);
      assert !live[other].state.Queued?;
      assert !live[other].state.Running?;
    }
  }

  /** Claims are the one step that could let a later task overtake; they do not. */
  lemma ClaimKeepsAhead(ts: Table, kinds: set<Kind>, holder: string, token: Token, now: int, leaseFor: int, id: Id, other: Id)
    requires PartitionsShareKind(ts) && id in ts && ts[id].state.Queued? && ts[id].partition != "" && other in ts
    ensures var ts' := MemClaim(ts, kinds, holder, token, now, leaseFor).0;
      ts'[id].state.Queued? && IsAhead(ts', id, other) ==> IsAhead(ts, id, other)
  {
    var live := ReleaseAll(ts, now);
    var (ts', r) := MemClaim(ts, kinds, holder, token, now, leaseFor);
    if ts'[id].state.Queued? && IsAhead(ts', id, other) && r == Claimed(other) {
      ClaimIsFifo(ts, kinds, holder, token, now, leaseFor, id);
      assert Earlier(ts', other, id);
    }
  }

  lemma RowStepKeepsAhead(ts: Table, op: Op, id: Id, other: Id)
    requires id in ts && ts[id].state.Queued? && !op.Create? && !op.Claim? && other in ts
    ensures var ts' := MemExec(ts, op).0;
      && id in ts' && other in ts' && ts'[id].partition == ts[id].partition
      && (ts'[id].state.Queued? && IsAhead(ts', id, other) ==> IsAhead(ts, id, other))
  {
  }

  /** A queued task's position never grows, whatever step the store takes, unless a task is created. */
  lemma PositionNeverGrows(ts: Table, op: Op, id: Id)
    requires PartitionsShareKind(ts) && id in ts && ts[id].state.Queued? && !op.Create?
    ensures id in MemExec(ts, op).0
    ensures Ahead(MemExec(ts, op).0, id) <= Ahead(ts, id)
    ensures |Ahead(MemExec(ts, op).0, id)| <= |Ahead(ts, id)|
  {
    var ts' := MemExec(ts, op).0;
    assert ts'.Keys == ts.Keys;
    forall other | other in Ahead(ts', id) ensures other in Ahead(ts, id) {
      if op.Claim? {
        ClaimKeepsAhead(ts, op.kinds, op.holder, op.token, op.now, op.leaseFor, id, other);
      } else {
        RowStepKeepsAhead(ts, op, id, other);
      }
    }
    SubsetSmaller(Ahead(ts', id), Ahead(ts, id));
  }

  /** Operations as Queue.Submit makes them: the key is PartitionKey's, so a
      partitioned task is a push. */
  ghost predicate Submitted(op: Op) {
    op.Create? ==> exists repo, branch :: op.partition == PartitionKey(op.kind, repo, branch)
  }

  ghost predicate PartitionedArePushes(ts: Table) {
    forall id :: id in ts && ts[id].partition != "" ==> ts[id].kind == Push
  }

  lemma StepKeepsPushes(ts: Table, op: Op)
    requires PartitionedArePushes(ts) && Submitted(op)
    ensures PartitionedArePushes(MemExec(ts, op).0)
  {
  }

  lemma {:induction false} RunsShareKind(ts: Table, ops: seq<Op>)
    requires PartitionedArePushes(ts)
    requires forall i :: 0 <= i < |ops| ==> Submitted(ops[i])
    ensures PartitionedArePushes(MemRun(ts, ops)) && PartitionsShareKind(MemRun(ts, ops))
    decreases |ops|
  {
    if ops != [] {
      assert Submitted(ops[0]);
      StepKeepsPushes(ts, ops[0]);
      RunsShareKind(MemExec(ts, ops[0]).0, ops[1..]);
    }
  }

  // ---------------------------------------------------------------- over whole runs

  /** While the task runs it has its partition to itself: nothing else of it runs, and
      whatever waits comes later. */
  ghost predicate Alone(ts: Table, id: Id)
    requires id in ts
  {
    forall other :: other in ts && other != id && ts[other].partition == ts[id].partition != "" ==>
      !ts[other].state.Running? && (ts[other].state.Queued? ==> Earlier(ts, id, other))
  }

  /** At most n tasks ahead of it if it waits, none if it runs. */
  ghost predicate Within(ts: Table, id: Id, n: nat) {
    id in ts && |Ahead(ts, id)| <= n && (ts[id].state.Running? ==> Alone(ts, id))
  }

  /** The claimed task has its partition to itself. */
  lemma ClaimedIsAlone(ts: Table, kinds: set<Kind>, holder: string, token: Token, now: int, leaseFor: int)
    requires PartitionsShareKind(ts) && MemClaim(ts, kinds, holder, token, now, leaseFor).1.Claimed?
    ensures var (ts', r) := MemClaim(ts, kinds, holder, token, now, leaseFor); r.id in ts' && Alone(ts', r.id)
  {
    var (ts', r) := MemClaim(ts, kinds, holder, token, now, leaseFor);
    var live := ReleaseAll(ts, now);
    assert Oldest(live, Candidates(live, kinds), r.id);
    assert Candidate(live, kinds, r.id);
    forall other | other in ts' && other != r.id && ts'[other].partition == ts'[r.id].partition != ""
      ensures !ts'[other].state.Running? && (ts'[other].state.Queued? ==> Earlier(ts', r.id, other))
    {
      ClaimIsFifo(ts, kinds, holder, token, now, leaseFor, other);
      assert live[other] == ts'[other];
    }
  }

  /** A claim elsewhere leaves a running task alone, and one whose lease lapsed first in line. */
  lemma ClaimKeepsAlone(ts: Table, kinds: set<Kind>, holder: string, token: Token, now: int, leaseFor: int, id: Id)
    requires PartitionsShareKind(ts) && id in ts && ts[id].state.Running? && Alone(ts, id)
    ensures var ts' := MemClaim(ts, kinds, holder, token, now, leaseFor).0;
      && id in ts' && (ts'[id].state.Running? ==> Alone(ts', id)) && Ahead(ts', id) == {}
  {
    var live := ReleaseAll(ts, now);
    var (ts', r) := MemClaim(ts, kinds, holder, token, now, leaseFor);
    assert Alone(live, id);
    if r.Claimed? && r.id != id && live[r.id].partition == live[id].partition != "" {
      assert Candidate(live, kinds, r.id);
      assert !live[id].state.Running?;
      ClaimIsFifo(ts, kinds, holder, token, now, leaseFor, id);
    }
    if r.Claimed? && r.id == id {
      ClaimedIsAlone(ts, kinds, holder, token, now, leaseFor);
    }
  }

  lemma StepKeepsWithin(ts: Table, op: Op, id: Id, n: nat)
    requires PartitionsShareKind(ts) && Within(ts, id, n) && !op.Create?
    ensures Within(MemExec(ts, op).0, id, n)
  {
    var ts' := MemExec(ts, op).0;
    if ts[id].state.Queued? {
      PositionNeverGrows(ts, op, id);
      if op.Claim? && MemExec(ts, op).1 == Claimed(id) {
        ClaimedIsAlone(ts, op.kinds, op.holder, op.token, op.now, op.leaseFor);
      }
    } else if op.Claim? && ts[id].state.Running? {
      ClaimKeepsAlone(ts, op.kinds, op.holder, op.token, op.now, op.leaseFor, id);
    } else if ts[id].state.Running? {
      RowStepKeepsAlone(ts, op, id);
    }
  }

  lemma RowStepKeepsAlone(ts: Table, op: Op, id: Id)
    requires id in ts && ts[id].state.Running? && Alone(ts, id) && !op.Create? && !op.Claim?
    ensures var ts' := MemExec(ts, op).0;
      id in ts' && (ts'[id].state.Running? ==> Alone(ts', id)) && Ahead(ts', id) == {}
  {
    assert Alone(MemExec(ts, op).0, id);
  }

  lemma {:induction false} PositionFrom(ts: Table, ops: seq<Op>, id: Id, n: nat)
    requires PartitionedArePushes(ts) && Within(ts, id, n)
    requires forall i :: 0 <= i < |ops| ==> !ops[i].Create?
    ensures Within(MemRun(ts, ops), id, n)
    decreases |ops|
  {
    if ops != [] {
      var next := MemExec(ts, ops[0]).0;
      assert !ops[0].Create?;
      StepKeepsWithin(ts, ops[0], id, n);
      StepKeepsPushes(ts, ops[0]);
      PositionFrom(next, ops[1..], id, n);
    }
  }

  /** Over whole runs of submitted tasks: from any reachable table, and whatever the task
      goes through, claimed, lapsed and requeued included, it never again has more tasks
      ahead of it than it had, until the next submission. */
  lemma PositionOverRun(before: seq<Op>, after: seq<Op>, id: Id)
    requires forall i :: 0 <= i < |before| ==> Submitted(before[i])
    requires forall i :: 0 <= i < |after| ==> !after[i].Create?
    requires var ts := MemRun(map[], before); id in ts && ts[id].state.Queued?
    ensures var ts := MemRun(map[], before);
      id in MemRun(ts, after) && |Ahead(MemRun(ts, after), id)| <= |Ahead(ts, id)|
  {
    var ts := MemRun(map[], before);
    RunsShareKind(map[], before);
    PositionFrom(ts, after, id, |Ahead(ts, id)|);
  }

  // ---------------------------------------------------------------- exclusion

  predicate Runs(ts: Table, id: Id) {
    id in ts && ts[id].state.Running?
  }

  ghost predicate OnePerPartition(ts: Table) {
    forall a, b :: Runs(ts, a) && Runs(ts, b) && ts[a].partition == ts[b].partition != "" ==> a == b
  }

  lemma StepKeepsExclusion(ts: Table, op: Op)
    requires OnePerPartition(ts) && (op.Create? ==> op.id !in ts)
    ensures OnePerPartition(MemExec(ts, op).0)
  {
    if op.Claim? {
      ClaimKeepsExclusion(ts, op);
    } else {
      forall id | Runs(MemExec(ts, op).0, id) ensures Runs(ts, id) && MemExec(ts, op).0[id].partition == ts[id].partition {
      }
    }
  }

  lemma ClaimKeepsExclusion(ts: Table, op: Op)
    requires OnePerPartition(ts) && op.Claim?
    ensures OnePerPartition(MemExec(ts, op).0)
  {
    var live := ReleaseAll(ts, op.now);
    assert OnePerPartition(live);
    var (ts', r) := MemExec(ts, op);
    if r.Claimed? {
      assert Candidate(live, op.kinds, r.id);
    }
  }

  ghost predicate FreshMemIds(ts: Table, ops: seq<Op>)
    decreases |ops|
  {
    ops != [] ==> (ops[0].Create? ==> ops[0].id !in ts) && FreshMemIds(MemExec(ts, ops[0]).0, ops[1..])
  }

  /** The scan excludes too: in every run of the memory store, at most one task of a
      partition runs. */
  lemma {:induction false} ScanExcludes(ts: Table, ops: seq<Op>)
    requires OnePerPartition(ts) && FreshMemIds(ts, ops)
    ensures OnePerPartition(MemRun(ts, ops))
    decreases |ops|
  {
    if ops != [] {
      StepKeepsExclusion(ts, ops[0]);
      ScanExcludes(MemExec(ts, ops[0]).0, ops[1..]);
    }
  }
}
