/** The task row, the transitions every store applies to one row, and the
    operations a run is made of. */
module Tasks {
  import opened Core

  // Ids stand for the store's own total order on task ids.
  type Id = nat
  // Tokens stand for the random lease tokens; freshness is a condition on runs.
  type Token = nat

  datatype Kind = Push | Pull

  datatype State = Queued | Running | Succeeded | Failed | Cancelled

  datatype Lease = Lease(holder: string, token: Token, expires: int)

  datatype Task = Task(
    tenant: string,
    requestId: string,
    kind: Kind,
    partition: string,   // "" is a task with no partition (NULL in SQL)
    created: int,
    state: State,
    attempts: nat,
    lease: Option<Lease>,
    result: string,
    error: Option<string>,
    updated: int,
    started: Option<int>,
    finished: Option<int>)

  type Table = map<Id, Task>

  datatype Outcome =
    | Ok
    | Claimed(id: Id)
    | Existing(id: Id)    // ErrDuplicateRequest, with the task already there
    | NoTask
    | NotFound
    | LeaseLost
    | Conflict
    | Constraint          // a CHECK constraint refused the row
    | LostRace

  datatype Op =
    | Create(id: Id, tenant: string, requestId: string, kind: Kind, partition: string, created: int)
    | Claim(candidate: Option<Id>, kinds: set<Kind>, holder: string, token: Token, now: int, leaseFor: int)
    | Heartbeat(id: Id, token: Token, until: int)
    | Complete(id: Id, token: Token, result: string, at: int)
    | Fail(id: Id, token: Token, cause: Option<string>, requeue: bool, at: int)
    | ReleaseExpired(now: int)
    | Cancel(id: Id, at: int)

  /** The serialization key: pushes serialize per repository and branch, pulls not at all. */
  function PartitionKey(kind: Kind, repository: string, branch: string): (key: string)
    ensures key != "" <==> kind == Push
  {
    if kind != Push then "" else repository + ":" + branch
  }

  predicate Terminal(s: State) {
    s.Succeeded? || s.Failed? || s.Cancelled?
  }

  /** The dispatch order: creation time, then id. */
  predicate Earlier(ts: Table, a: Id, b: Id)
    requires a in ts && b in ts
  {
    ts[a].created < ts[b].created || (ts[a].created == ts[b].created && a < b)
  }

  predicate Wanted(kinds: set<Kind>, k: Kind) {
    kinds == {} || k in kinds
  }

  predicate Expired(t: Task, now: int) {
    t.state.Running? && t.lease.Some? && t.lease.value.expires <= now
  }

  predicate HoldsLease(t: Task, token: Token) {
    t.state.Running? && t.lease.Some? && t.lease.value.token == token
  }

  /** A finish stamped before the start, which neither store lets into a completed row. */
  predicate TooEarly(t: Task, at: int) {
    t.started.Some? && at < t.started.value
  }

  function LeaseTime(leaseFor: int): int {
    if leaseFor <= 0 then 60 else leaseFor
  }

  // Transitions of one row.

  function NewTask(tenant: string, requestId: string, kind: Kind, partition: string, created: int): Task {
    Task(tenant, requestId, kind, partition, created, Queued, 0, None, "", None, created, None, None)
  }

  function ToClaimed(t: Task, holder: string, token: Token, now: int, leaseFor: int): Task {
    t.(state := Running,
       attempts := t.attempts + 1,
       lease := Some(Lease(holder, token, now + LeaseTime(leaseFor))),
       updated := now,
       started := if t.started.None? then Some(now) else t.started)
  }

  function ToBeaten(t: Task, until: int): Task
    requires t.lease.Some?
  {
    t.(lease := Some(t.lease.value.(expires := until)), updated := until)
  }

  function ToSucceeded(t: Task, result: string, at: int): Task {
    t.(state := Succeeded, result := result, error := None, lease := None, updated := at, finished := Some(at))
  }

  function ToFailed(t: Task, cause: Option<string>, at: int): Task {
    t.(state := Failed, error := cause, lease := None, updated := at, finished := Some(at))
  }

  function ToRequeued(t: Task, cause: Option<string>, at: int): Task {
    t.(state := Queued, error := cause, lease := None, updated := at, started := None)
  }

  function ToReleased(t: Task, now: int): Task {
    t.(state := Queued, lease := None, started := None, updated := now)
  }

  function ToCancelled(t: Task, at: int): Task {
    t.(state := Cancelled, updated := at, finished := Some(at))
  }

  /** Every task whose lease has lapsed goes back to the queue. */
  function ReleaseAll(ts: Table, now: int): Table {
    map id | id in ts :: if Expired(ts[id], now) then ToReleased(ts[id], now) else ts[id]
  }
}
