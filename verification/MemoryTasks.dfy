/** The in-memory task store: a map scanned under one mutex. The functions are
    its specification, the class its code; the lemmas are the queue order. */
module MemoryTasks {
  import opened Core
  import opened Tasks

  // ---------------------------------------------------------------- specification

  predicate Busy(ts: Table, partition: string) {
    exists id :: id in ts && ts[id].state.Running? && ts[id].partition == partition
  }

  predicate Candidate(ts: Table, kinds: set<Kind>, id: Id) {
    && id in ts
    && ts[id].state.Queued?
    && Wanted(kinds, ts[id].kind)
    && (ts[id].partition == "" || !Busy(ts, ts[id].partition))
  }

  /** `id` heads the dispatch order among the ids of `among`. */
  ghost predicate Oldest(ts: Table, among: set<Id>, id: Id)
    requires among <= ts.Keys
  {
    id in among && forall other :: other in among ==> other == id || Earlier(ts, id, other)
  }

  ghost function Candidates(ts: Table, kinds: set<Kind>): (c: set<Id>)
    ensures c <= ts.Keys
  {
    set id | id in ts && Candidate(ts, kinds, id)
  }

  /** Every non-empty set of ids has exactly one head. */
  lemma {:induction false} OldestExists(ts: Table, among: set<Id>) returns (id: Id)
    requires among <= ts.Keys && among != {}
    ensures Oldest(ts, among, id)
    decreases |among|
  {
    var x :| x in among;
    if among == {x} {
      id := x;
    } else {
      var y := OldestExists(ts, among - {x});
      id := if Earlier(ts, x, y) then x else y;
      forall other | other in among ensures other == id || Earlier(ts, id, other) {
        assert other == x || other in among - {x};
      }
    }
  }

  ghost function Head(ts: Table, among: set<Id>): (r: Option<Id>)
    requires among <= ts.Keys
    ensures among == {} ==> r == None
    ensures among != {} ==> r.Some? && Oldest(ts, among, r.value)
  {
    if among == {} then None
    else
      assert exists id :: Oldest(ts, among, id) by { var id := OldestExists(ts, among); }
      var id :| Oldest(ts, among, id);
      Some(id)
  }

  predicate SameRequest(t: Task, tenant: string, requestId: string) {
    t.tenant == tenant && t.requestId == requestId
  }

  ghost function MemClaim(ts: Table, kinds: set<Kind>, holder: string, token: Token, now: int, leaseFor: int): (Table, Outcome) {
    var live := ReleaseAll(ts, now);
    match Head(live, Candidates(live, kinds))
    case None => (live, NoTask)
    case Some(id) => (live[id := ToClaimed(live[id], holder, token, now, leaseFor)], Claimed(id))
  }

  /** What Heartbeat, Complete and Fail share: the row must exist and the token must be current. */
  function MemGuard(ts: Table, id: Id, token: Token): Outcome {
    if id !in ts then NotFound
    else if !HoldsLease(ts[id], token) then LeaseLost
    else Ok
  }

  function MemHeartbeat(ts: Table, id: Id, token: Token, until: int): (Table, Outcome) {
    var guard := MemGuard(ts, id, token);
    if guard != Ok then (ts, guard) else (ts[id := ToBeaten(ts[id], until)], Ok)
  }

  function MemComplete(ts: Table, id: Id, token: Token, result: string, at: int): (Table, Outcome) {
    var guard := MemGuard(ts, id, token);
    if guard != Ok then (ts, guard)
    else if TooEarly(ts[id], at) then (ts, Conflict)
    else (ts[id := ToSucceeded(ts[id], result, at)], Ok)
  }

  function MemFail(ts: Table, id: Id, token: Token, cause: Option<string>, requeue: bool, at: int): (Table, Outcome) {
    var guard := MemGuard(ts, id, token);
    if guard != Ok then (ts, guard)
    else if requeue then (ts[id := ToRequeued(ts[id], cause, at)], Ok)
    else (ts[id := ToFailed(ts[id], cause, at)], Ok)
  }

  function MemCancel(ts: Table, id: Id, at: int): (Table, Outcome) {
    if id !in ts then (ts, NotFound)
    else if !ts[id].state.Queued? then (ts, Conflict)
    else (ts[id := ToCancelled(ts[id], at)], Ok)
  }

  ghost predicate Duplicated(ts: Table, tenant: string, requestId: string) {
    exists id :: id in ts && SameRequest(ts[id], tenant, requestId)
  }

  ghost function Repeated(ts: Table, tenant: string, requestId: string): (id: Id)
    requires Duplicated(ts, tenant, requestId)
    ensures id in ts && SameRequest(ts[id], tenant, requestId)
  {
    var id :| id in ts && SameRequest(ts[id], tenant, requestId);
    id
  }

  ghost function MemCreate(ts: Table, id: Id, tenant: string, requestId: string, kind: Kind, partition: string, created: int): (Table, Outcome)
  {
    if requestId != "" && Duplicated(ts, tenant, requestId) then (ts, Existing(Repeated(ts, tenant, requestId)))
    else
      (ts[id := NewTask(tenant, requestId, kind, partition, created)], Ok)
  }

  ghost function MemExec(ts: Table, op: Op): (Table, Outcome) {
    match op
    case Create(id, tenant, requestId, kind, partition, created) =>
      MemCreate(ts, id, tenant, requestId, kind, partition, created)
    case Claim(_, kinds, holder, token, now, leaseFor) => MemClaim(ts, kinds, holder, token, now, leaseFor)
    case Heartbeat(id, token, until) => MemHeartbeat(ts, id, token, until)
    case Complete(id, token, result, at) => MemComplete(ts, id, token, result, at)
    case Fail(id, token, cause, requeue, at) => MemFail(ts, id, token, cause, requeue, at)
    case ReleaseExpired(now) => (ReleaseAll(ts, now), Ok)
    case Cancel(id, at) => MemCancel(ts, id, at)
  }

  ghost function MemRun(ts: Table, ops: seq<Op>): Table
    decreases |ops|
  {
    if ops == [] then ts else MemRun(MemExec(ts, ops[0]).0, ops[1..])
  }

  /** The tasks between `id` and execution. */
  ghost function Ahead(ts: Table, id: Id): (a: set<Id>)
    requires id in ts
    ensures a <= ts.Keys
  {
    if !ts[id].state.Queued? || ts[id].partition == "" then {}
    else set other | other in ts && IsAhead(ts, id, other)
  }

  predicate IsAhead(ts: Table, id: Id, other: Id)
    requires id in ts && other in ts
  {
    && other != id
    && ts[other].partition == ts[id].partition
    && (ts[other].state.Running? || (ts[other].state.Queued? && Earlier(ts, other, id)))
  }

  // ---------------------------------------------------------------- the store

  ghost function LapsedIds(ts: Table, now: int): set<Id> {
    set id | id in ts && Expired(ts[id], now)
  }

  /** The sweep has reached every row but those of `left`. */
  ghost predicate ReleasedOutside(was: Table, ts: Table, left: set<Id>, now: int) {
    && left <= ts.Keys && ts.Keys == was.Keys
    && forall x :: x in ts ==> ts[x] == if x in left then was[x] else ReleaseAll(was, now)[x]
  }

  lemma ReleasedEverywhere(was: Table, ts: Table, now: int)
    requires ReleasedOutside(was, ts, {}, now)
    ensures ts == ReleaseAll(was, now) && LapsedIds(was, now) - {} == LapsedIds(was, now)
  {
  }

  lemma ReleaseOne(was: Table, ts: Table, left: set<Id>, now: int, x: Id)
    requires ReleasedOutside(was, ts, left, now) && x in left
    ensures ts[x] == was[x]
    ensures Expired(ts[x], now) ==>
      && ReleasedOutside(was, ts[x := ToReleased(ts[x], now)], left - {x}, now)
      && |LapsedIds(was, now) - (left - {x})| == |LapsedIds(was, now) - left| + 1
    ensures !Expired(ts[x], now) ==>
      && ReleasedOutside(was, ts, left - {x}, now)
      && LapsedIds(was, now) - (left - {x}) == LapsedIds(was, now) - left
  {
    var lapsed := LapsedIds(was, now);
    if Expired(ts[x], now) {
      assert lapsed - (left - {x}) == lapsed - left + {x};
    } else {
      assert lapsed - (left - {x}) == lapsed - left;
    }
  }

  class MemoryStore {
    var tasks: Table

    constructor ()
      ensures tasks == map[]
    {
      tasks := map[];
    }

    method Create(id: Id, tenant: string, requestId: string, kind: Kind, partition: string, created: int) returns (r: Outcome)
      requires id !in tasks
      modifies this
      ensures r.Existing? ==>
        && tasks == old(tasks) && requestId != ""
        && r.id in tasks && SameRequest(tasks[r.id], tenant, requestId)
      ensures !r.Existing? ==>
        && r == Ok && tasks == old(tasks)[id := NewTask(tenant, requestId, kind, partition, created)]
        && (requestId == "" || !Duplicated(old(tasks), tenant, requestId))
    {
      if requestId != "" {
        var left := tasks.Keys;
        while left != {}
          invariant left <= tasks.Keys && tasks == old(tasks)
          invariant forall x :: x in tasks && x !in left ==> !SameRequest(tasks[x], tenant, requestId)
          decreases left
        {
          var x :| x in left;
          if SameRequest(tasks[x], tenant, requestId) {
            return Existing(x);
          }
          left := left - {x};
        }
      }
      tasks := tasks[id := NewTask(tenant, requestId, kind, partition, created)];
      r := Ok;
    }

    /** Puts every lapsed task back, one row at a time, and counts them. */
    method ReleaseExpired(now: int) returns (released: nat)
      modifies this
      ensures tasks == ReleaseAll(old(tasks), now)
      ensures released == |LapsedIds(old(tasks), now)|
    {
      released := 0;
      var left := tasks.Keys;
      ghost var was := tasks;
      assert LapsedIds(was, now) - left == {};
      while left != {}
        invariant ReleasedOutside(was, tasks, left, now)
        invariant released == |LapsedIds(was, now) - left|
        decreases left
      {
        var x :| x in left;
        ReleaseOne(was, tasks, left, now, x);
        if Expired(tasks[x], now) {
          tasks := tasks[x := ToReleased(tasks[x], now)];
          released := released + 1;
        }
        left := left - {x};
      }
      ReleasedEverywhere(was, tasks, now);
    }

    /** The partitions that have a running task. */
    method BusyPartitions() returns (busy: set<string>)
      ensures forall p :: p in busy <==> p != "" && Busy(tasks, p)
    {
      busy := {};
      var left := tasks.Keys;
      while left != {}
        invariant left <= tasks.Keys
        invariant forall p :: p in busy ==> p != "" && Busy(tasks, p)
        invariant forall x :: x in tasks && x !in left && tasks[x].state.Running? && tasks[x].partition != ""
                    ==> tasks[x].partition in busy
        decreases left
      {
        var x :| x in left;
        if tasks[x].state.Running? && tasks[x].partition != "" {
          busy := busy + {tasks[x].partition};
        }
        left := left - {x};
      }
    }

    method Claim(kinds: set<Kind>, holder: string, token: Token, now: int, leaseFor: int) returns (r: Outcome)
      modifies this
      ensures (tasks, r) == MemClaim(old(tasks), kinds, holder, token, now, leaseFor)
    {
      var _ := ReleaseExpired(now);
      var best := FirstCandidate(kinds);
      if best.None? {
        return NoTask;
      }
      tasks := tasks[best.value := ToClaimed(tasks[best.value], holder, token, now, leaseFor)];
      r := Claimed(best.value);
    }

    /** Collects the candidates off the busy partitions and takes the head of their order. */
    method FirstCandidate(kinds: set<Kind>) returns (best: Option<Id>)
      ensures best == Head(tasks, Candidates(tasks, kinds))
    {
      var busy := BusyPartitions();
      best := None;   // the head of the sorted candidate list
      var left := tasks.Keys;
      ghost var found: set<Id> := {};
      while left != {}
        invariant left <= tasks.Keys
        invariant found == set x | x in tasks && x !in left && Candidate(tasks, kinds, x)
        invariant found <= tasks.Keys
        invariant if best.None? then found == {} else Oldest(tasks, found, best.value)
        decreases left
      {
        var x :| x in left;
        if tasks[x].state.Queued? && Wanted(kinds, tasks[x].kind)
           && (tasks[x].partition == "" || tasks[x].partition !in busy) {
          assert Candidate(tasks, kinds, x);
          found := found + {x};
          if best.None? || Earlier(tasks, x, best.value) {
            best := Some(x);
          }
        }
        left := left - {x};
      }
      assert found == Candidates(tasks, kinds);
      if best.Some? {
        HeadIs(tasks, found, best.value);
      }
    }

    method Heartbeat(id: Id, token: Token, until: int) returns (r: Outcome)
      modifies this
      ensures (tasks, r) == MemHeartbeat(old(tasks), id, token, until)
    {
      if id !in tasks { return NotFound; }
      if !HoldsLease(tasks[id], token) { return LeaseLost; }
      tasks := tasks[id := ToBeaten(tasks[id], until)];
      r := Ok;
    }

    method Complete(id: Id, token: Token, result: string, at: int) returns (r: Outcome)
      modifies this
      ensures (tasks, r) == MemComplete(old(tasks), id, token, result, at)
    {
      if id !in tasks { return NotFound; }
      if !HoldsLease(tasks[id], token) { return LeaseLost; }
      if TooEarly(tasks[id], at) { return Conflict; }
      tasks := tasks[id := ToSucceeded(tasks[id], result, at)];
      r := Ok;
    }

    method Fail(id: Id, token: Token, cause: Option<string>, requeue: bool, at: int) returns (r: Outcome)
      modifies this
      ensures (tasks, r) == MemFail(old(tasks), id, token, cause, requeue, at)
    {
      if id !in tasks { return NotFound; }
      if !HoldsLease(tasks[id], token) { return LeaseLost; }
      if requeue {
        tasks := tasks[id := ToRequeued(tasks[id], cause, at)];
      } else {
        tasks := tasks[id := ToFailed(tasks[id], cause, at)];
      }
      r := Ok;
    }

    method Cancel(id: Id, at: int) returns (r: Outcome)
      modifies this
      ensures (tasks, r) == MemCancel(old(tasks), id, at)
    {
      if id !in tasks { return NotFound; }
      if !tasks[id].state.Queued? { return Conflict; }
      tasks := tasks[id := ToCancelled(tasks[id], at)];
      r := Ok;
    }

    method QueuePosition(id: Id) returns (r: Result<nat, Outcome>)
      ensures r == if id !in tasks then Failure(NotFound) else Success(|Ahead(tasks, id)|)
    {
      if id !in tasks { return Failure(NotFound); }
      if !tasks[id].state.Queued? { return Success(0); }
      if tasks[id].partition == "" { return Success(0); }
      var position := 0;
      var left := tasks.Keys;
      ghost var counted: set<Id> := {};
      while left != {}
        invariant left <= tasks.Keys
        invariant counted == set x | x in tasks && x !in left && IsAhead(tasks, id, x)
        invariant position == |counted|
        decreases left
      {
        var x :| x in left;
        if x != id && tasks[x].partition == tasks[id].partition
           && (tasks[x].state.Running? || (tasks[x].state.Queued? && Earlier(tasks, x, id))) {
          position := position + 1;
          counted := counted + {x};
        }
        left := left - {x};
      }
      assert counted == Ahead(tasks, id);
      r := Success(position);
    }
  }

  lemma HeadIs(ts: Table, among: set<Id>, id: Id)
    requires among <= ts.Keys && Oldest(ts, among, id)
    ensures Head(ts, among) == Some(id)
  {
    var h := Head(ts, among).value;
    assert h == id || Earlier(ts, id, h);
  }
}
