/** Fencing over whole runs, of either store: every claim, renewal and exit of a task is
    recorded in a history, and the history shows that only the latest claim ever acts. */
module Fencing {
  import opened Core
  import opened Tasks
  import opened MemoryTasks
  import opened LeaseTable

  datatype Backend = Sql | Memory

  datatype Event =
    | Taken(token: Token, attempt: nat)
    | Renewed(token: Token)
    | Lapsed(token: Token)
    | Finished(token: Token)                  // Complete, or Fail without requeue
    | Returned(token: Token, retry: bool)     // Fail with requeue; retry: decided by Handle.Fail

  type History = seq<Event>

  /** What queue.Handle adds to the store's operations. */
  datatype QueueOp =
    | Store(op: Op)
    | HandleFail(id: Id, token: Token, code: Option<string>, at: int)
    | HandleRelease(id: Id, token: Token, at: int)

  datatype Sys = Sys(store: Backend, db: Db, hist: map<Id, History>, issued: set<Token>)

  function Start(store: Backend): Sys {
    Sys(store, EMPTY, map[], {})
  }

  /** One call of the store; the memory store has no lease table. */
  ghost function Exec(store: Backend, db: Db, op: Op): (Db, Outcome) {
    match store
    case Sql => SqlExec(db, op)
    case Memory => (Db(MemExec(db.tasks, op).0, map[]), MemExec(db.tasks, op).1)
  }

  predicate IsPermanent(code: string) {
    code in {"unauthorized_paths", "unknown_repository", "stale_sync_point", "unknown_sync_point",
             "patch_too_large", "unsupported_version"}
  }

  predicate Exit(e: Event) {
    e.Lapsed? || e.Finished? || e.Returned?
  }

  /** The claim still open at the end of a history: its token and attempt number. */
  ghost function Open(h: History): Option<(Token, nat)> {
    if h == [] then None
    else match h[|h| - 1]
      case Taken(token, attempt) => Some((token, attempt))
      case Renewed(_) => Open(h[..|h| - 1])
      case _ => None
  }

  ghost function Claims(h: History): nat {
    if h == [] then 0 else Claims(h[..|h| - 1]) + (if h[|h| - 1].Taken? then 1 else 0)
  }

  ghost function Retries(h: History): nat {
    if h == [] then 0 else Retries(h[..|h| - 1]) + (if h[|h| - 1].Returned? && h[|h| - 1].retry then 1 else 0)
  }

  /** Returns to the queue that are not retries of a failure: expiry and Release. */
  ghost function OtherReturns(h: History): nat {
    if h == [] then 0
    else OtherReturns(h[..|h| - 1]) +
         (if h[|h| - 1].Lapsed? || (h[|h| - 1].Returned? && !h[|h| - 1].retry) then 1 else 0)
  }

  /** Claims are numbered and never overlap; every other event carries the token of
      the claim then open; Handle.Fail retries only below the attempt limit. */
  ghost predicate Fenced(h: History, max: nat) {
    h != [] ==>
      var front, e := h[..|h| - 1], h[|h| - 1];
      && Fenced(front, max)
      && (if e.Taken? then Open(front) == None && e.attempt == Claims(front) + 1
          else Open(front).Some? && Open(front).value.0 == e.token)
      && (e.Returned? && e.retry ==> Open(front).value.1 < max)
  }

  // ---------------------------------------------------------------- steps

  ghost function Push(hist: map<Id, History>, id: Id, e: Event): map<Id, History> {
    if id in hist then hist[id := hist[id] + [e]] else hist
  }

  ghost function WithLapses(s: Sys, now: int): map<Id, History> {
    map id | id in s.hist ::
      if id in s.db.tasks && Expired(s.db.tasks[id], now)
      then s.hist[id] + [Lapsed(s.db.tasks[id].lease.value.token)] else s.hist[id]
  }

  ghost function StoreStep(s: Sys, op: Op, retry: bool): Sys {
    var (db', r) := Exec(s.store, s.db, op);
    if r == NoTask && s.store.Memory? then s.(db := db', hist := WithLapses(s, op.now))
    else if r != Ok && !r.Claimed? then s
    else match op
      case Create(id, _, _, _, _, _) => s.(db := db', hist := s.hist[id := []])
      case Claim(_, _, _, token, now, _) =>
        s.(db := db', hist := Push(WithLapses(s, now), r.id, Taken(token, db'.tasks[r.id].attempts)),
           issued := s.issued + {token})
      case Heartbeat(id, token, _) => s.(db := db', hist := Push(s.hist, id, Renewed(token)))
      case Complete(id, token, _, _) => s.(db := db', hist := Push(s.hist, id, Finished(token)))
      case Fail(id, token, _, requeue, _) =>
        s.(db := db', hist := Push(s.hist, id, if requeue then Returned(token, retry) else Finished(token)))
      case ReleaseExpired(now) => s.(db := db', hist := WithLapses(s, now))
      case Cancel(_, _) => s.(db := db')
  }

  /** The attempt number the worker's handle saw: that of the claim with its token. */
  ghost predicate Claimed(h: History, token: Token, attempt: nat) {
    exists i :: 0 <= i < |h| && h[i] == Taken(token, attempt)
  }

  ghost function Attempt(h: History, token: Token): nat {
    if attempt: nat :| Claimed(h, token, attempt) then attempt else 0
  }

  ghost function QueueStep(s: Sys, q: QueueOp, max: nat): Sys {
    match q
    case Store(op) => StoreStep(s, op, false)
    case HandleFail(id, token, code, at) =>
      var attempt := if id in s.hist then Attempt(s.hist[id], token) else 0;
      var requeue := attempt < max && !(code.Some? && IsPermanent(code.value));
      StoreStep(s, Fail(id, token, code, requeue, at), true)
    case HandleRelease(id, token, at) => StoreStep(s, Fail(id, token, None, true, at), false)
  }

  ghost predicate Legal(s: Sys, q: QueueOp) {
    q.Store? ==>
      && (q.op.Create? ==> q.op.id !in s.db.tasks)
      && (q.op.Claim? ==> q.op.token !in s.issued)
  }

  ghost function QueueRun(s: Sys, qs: seq<QueueOp>, max: nat): Sys
    decreases |qs|
  {
    if qs == [] then s else QueueRun(QueueStep(s, qs[0], max), qs[1..], max)
  }

  ghost predicate LegalRun(s: Sys, qs: seq<QueueOp>, max: nat)
    decreases |qs|
  {
    qs != [] ==> Legal(s, qs[0]) && LegalRun(QueueStep(s, qs[0], max), qs[1..], max)
  }

  // ---------------------------------------------------------------- one row and its history

  ghost predicate RowFits(t: Task, h: History, max: nat) {
    && RowOk(t)
    && Open(h) == (if t.state.Running? then Some((t.lease.value.token, t.attempts)) else None)
    && Fenced(h, max)
    && Claims(h) == t.attempts
    && (!Terminal(t.state) ==> Retries(h) + OtherReturns(h) + (if t.state.Running? then 1 else 0) == Claims(h))
    && Retries(h) < max
    && (OtherReturns(h) == 0 ==> Claims(h) <= max)
  }

  lemma Appended(h: History, e: Event)
    ensures (h + [e])[..|h + [e]| - 1] == h && (h + [e])[|h + [e]| - 1] == e
  {
  }

  lemma TakenFits(t: Task, h: History, max: nat, holder: string, token: Token, now: int, leaseFor: int)
    requires RowFits(t, h, max) && t.state.Queued?
    ensures RowFits(ToClaimed(t, holder, token, now, leaseFor), h + [Taken(token, t.attempts + 1)], max)
  {
    Appended(h, Taken(token, t.attempts + 1));
  }

  lemma LapsedFits(t: Task, h: History, max: nat, now: int)
    requires RowFits(t, h, max) && t.state.Running?
    ensures RowFits(ToReleased(t, now), h + [Lapsed(t.lease.value.token)], max)
  {
    Appended(h, Lapsed(t.lease.value.token));
  }

  lemma RenewedFits(t: Task, h: History, max: nat, until: int)
    requires RowFits(t, h, max) && t.state.Running?
    ensures RowFits(ToBeaten(t, until), h + [Renewed(t.lease.value.token)], max)
  {
    Appended(h, Renewed(t.lease.value.token));
  }

  lemma FinishedFits(t: Task, t': Task, h: History, max: nat)
    requires RowFits(t, h, max) && t.state.Running?
    requires Terminal(t'.state) && t'.lease.None? && t'.attempts == t.attempts
    ensures RowFits(t', h + [Finished(t.lease.value.token)], max)
  {
    Appended(h, Finished(t.lease.value.token));
  }

  lemma CancelledFits(t: Task, h: History, max: nat, at: int)
    requires RowFits(t, h, max) && t.state.Queued?
    ensures RowFits(ToCancelled(t, at), h, max)
  {
  }

  lemma ReturnedFits(t: Task, h: History, max: nat, cause: Option<string>, at: int, retry: bool)
    requires RowFits(t, h, max) && t.state.Running? && (retry ==> t.attempts < max)
    ensures RowFits(ToRequeued(t, cause, at), h + [Returned(t.lease.value.token, retry)], max)
  {
    Appended(h, Returned(t.lease.value.token, retry));
  }

  // ---------------------------------------------------------------- the system

  ghost predicate TokenAt(s: Sys, id: Id, i: int, token: Token) {
    id in s.hist && 0 <= i < |s.hist[id]| && s.hist[id][i].Taken? && s.hist[id][i].token == token
  }

  /** Tokens name one claim in the whole system. */
  ghost predicate TokensOnce(s: Sys) {
    && (forall id, i, token :: TokenAt(s, id, i, token) ==> token in s.issued)
    && (forall id, i, id', i', token :: TokenAt(s, id, i, token) && TokenAt(s, id', i', token) ==> id == id' && i == i')
  }

  ghost predicate SysInv(s: Sys, max: nat) {
    && RowsFit(s.db.tasks, s.hist, max)
    && TokensOnce(s)
  }

  /** The open claim is in the history, so the handle holding its token saw its number. */
  lemma {:induction false} OpenIsTaken(h: History) returns (i: nat)
    requires Open(h).Some?
    ensures i < |h| && h[i] == Taken(Open(h).value.0, Open(h).value.1)
    ensures Claimed(h, Open(h).value.0, Open(h).value.1)
  {
    var front := h[..|h| - 1];
    if h[|h| - 1].Taken? {
      i := |h| - 1;
    } else {
      i := OpenIsTaken(front);
    }
  }

  lemma AttemptOfOpen(s: Sys, id: Id, max: nat)
    requires SysInv(s, max) && id in s.hist && Open(s.hist[id]).Some?
    ensures Attempt(s.hist[id], Open(s.hist[id]).value.0) == s.db.tasks[id].attempts
  {
    var h := s.hist[id];
    var token := Open(h).value.0;
    var i := OpenIsTaken(h);
    var n := Attempt(h, token);
    assert Claimed(h, token, n);
    var j :| 0 <= j < |h| && h[j] == Taken(token, n);
    assert TokenAt(s, id, i, token) && TokenAt(s, id, j, token);
  }

  /** Histories that gained no claim keep their tokens unique. */
  lemma NoNewClaims(s: Sys, s': Sys)
    requires TokensOnce(s) && s.issued <= s'.issued
    requires forall id, i, token :: TokenAt(s', id, i, token) ==> TokenAt(s, id, i, token)
    ensures TokensOnce(s')
  {
  }

  lemma LapsesFit(s: Sys, now: int, max: nat, id: Id)
    requires RowsFit(s.db.tasks, s.hist, max) && id in s.hist
    ensures id in WithLapses(s, now) && RowFits(ReleaseAll(s.db.tasks, now)[id], WithLapses(s, now)[id], max)
  {
    var t := s.db.tasks[id];
    if Expired(t, now) {
      LapsedFits(t, s.hist[id], max, now);
    }
  }

  ghost predicate RowsFit(ts: Table, hist: map<Id, History>, max: nat) {
    hist.Keys == ts.Keys && forall id :: id in hist ==> RowFits(ts[id], hist[id], max)
  }

  lemma LapsesKeepRows(s: Sys, now: int, max: nat)
    requires RowsFit(s.db.tasks, s.hist, max)
    ensures RowsFit(ReleaseAll(s.db.tasks, now), WithLapses(s, now), max)
  {
    forall id | id in s.hist
      ensures RowFits(ReleaseAll(s.db.tasks, now)[id], WithLapses(s, now)[id], max)
    {
      LapsesFit(s, now, max, id);
    }
  }

  lemma ClaimShape(s: Sys, op: Op)
    requires s.hist.Keys == s.db.tasks.Keys && op.Claim? && Exec(s.store, s.db, op).1.Claimed?
    ensures var s', id := StoreStep(s, op, false), Exec(s.store, s.db, op).1.id;
      var live, lapsed := ReleaseAll(s.db.tasks, op.now), WithLapses(s, op.now);
      && id in live && id in lapsed && live[id].state.Queued?
      && s'.db.tasks == live[id := ToClaimed(live[id], op.holder, op.token, op.now, op.leaseFor)]
      && s'.hist == lapsed[id := lapsed[id] + [Taken(op.token, live[id].attempts + 1)]]
  {
  }

  lemma OneRowFits(ts: Table, hist: map<Id, History>, max: nat, id: Id, t: Task, h: History)
    requires RowsFit(ts, hist, max) && RowFits(t, h, max)
    ensures RowsFit(ts[id := t], hist[id := h], max)
  {
  }

  lemma ClaimKeepsRows(s: Sys, op: Op, max: nat)
    requires RowsFit(s.db.tasks, s.hist, max) && op.Claim? && Exec(s.store, s.db, op).1.Claimed?
    ensures var s' := StoreStep(s, op, false); RowsFit(s'.db.tasks, s'.hist, max)
  {
    ClaimShape(s, op);
    TakenKeepsRows(s, max, Exec(s.store, s.db, op).1.id, op.holder, op.token, op.now, op.leaseFor);
  }

  lemma TakenKeepsRows(s: Sys, max: nat, id: Id, holder: string, token: Token, now: int, leaseFor: int)
    requires RowsFit(s.db.tasks, s.hist, max)
    requires var live := ReleaseAll(s.db.tasks, now); id in live && live[id].state.Queued?
    ensures var live, lapsed := ReleaseAll(s.db.tasks, now), WithLapses(s, now);
      RowsFit(live[id := ToClaimed(live[id], holder, token, now, leaseFor)],
              lapsed[id := lapsed[id] + [Taken(token, live[id].attempts + 1)]], max)
  {
    var live, lapsed := ReleaseAll(s.db.tasks, now), WithLapses(s, now);
    LapsesKeepRows(s, now, max);
    TakenFits(live[id], lapsed[id], max, holder, token, now, leaseFor);
    OneRowFits(live, lapsed, max, id, ToClaimed(live[id], holder, token, now, leaseFor),
               lapsed[id] + [Taken(token, live[id].attempts + 1)]);
  }

  lemma ClaimKeepsTokens(s: Sys, op: Op)
    requires s.hist.Keys == s.db.tasks.Keys && TokensOnce(s)
    requires op.Claim? && op.token !in s.issued && Exec(s.store, s.db, op).1.Claimed?
    ensures TokensOnce(StoreStep(s, op, false))
  {
    ClaimShape(s, op);
    var id := Exec(s.store, s.db, op).1.id;
    OneClaimKeepsTokens(s, StoreStep(s, op, false), op.now, id, op.token, ReleaseAll(s.db.tasks, op.now)[id].attempts + 1);
  }

  lemma OneClaimKeepsTokens(s: Sys, s': Sys, now: int, id: Id, token: Token, attempt: nat)
    requires TokensOnce(s) && token !in s.issued && s'.issued == s.issued + {token}
    requires var lapsed := WithLapses(s, now); id in lapsed && s'.hist == lapsed[id := lapsed[id] + [Taken(token, attempt)]]
    ensures TokensOnce(s')
  {
    var lapsed := WithLapses(s, now);
    forall x, i, t | TokenAt(s', x, i, t)
      ensures TokenAt(s, x, i, t) || (x == id && i == |lapsed[id]| && t == token)
    {
    }
  }

  /** A step that moves one row and appends one event to its history. */
  lemma OneRowKeepsSys(s: Sys, s': Sys, id: Id, e: Event, max: nat)
    requires SysInv(s, max) && id in s.hist && !e.Taken?
    requires s'.db.tasks.Keys == s.db.tasks.Keys && s'.issued == s.issued
    requires forall x :: x in s.hist && x != id ==> s'.db.tasks[x] == s.db.tasks[x]
    requires s'.hist == s.hist[id := s.hist[id] + [e]]
    requires RowFits(s'.db.tasks[id], s'.hist[id], max)
    ensures SysInv(s', max)
  {
    OneEventKeepsTokens(s, s', id, e);
  }

  lemma OneEventKeepsTokens(s: Sys, s': Sys, id: Id, e: Event)
    requires TokensOnce(s) && id in s.hist && !e.Taken? && s'.issued == s.issued
    requires s'.hist == s.hist[id := s.hist[id] + [e]]
    ensures TokensOnce(s')
  {
    forall x, i, token | TokenAt(s', x, i, token) ensures TokenAt(s, x, i, token) {
    }
    NoNewClaims(s, s');
  }

  /** The sweep, on its own or in a memory-store claim that found nothing. */
  lemma ReleaseKeepsSys(s: Sys, s': Sys, now: int, max: nat)
    requires SysInv(s, max) && s'.issued == s.issued
    requires s'.db.tasks == ReleaseAll(s.db.tasks, now) && s'.hist == WithLapses(s, now)
    ensures SysInv(s', max)
  {
    LapsesKeepRows(s, now, max);
    forall x, i, token | TokenAt(s', x, i, token) ensures TokenAt(s, x, i, token) {
    }
    NoNewClaims(s, s');
  }

  lemma FinishKeepsSys(s: Sys, op: Op, retry: bool, max: nat)
    requires SysInv(s, max) && (op.Heartbeat? || op.Complete? || op.Fail?)
    requires retry && op.Fail? && op.requeue && op.id in s.db.tasks && HoldsLease(s.db.tasks[op.id], op.token)
      ==> s.db.tasks[op.id].attempts < max
    ensures SysInv(StoreStep(s, op, retry), max)
  {
    if Exec(s.store, s.db, op).1 == Ok {
      FinishShape(s, op, retry);
      ActFits(s.store, s.db, op, retry, s.hist[op.id], max);
      OneRowKeepsSys(s, StoreStep(s, op, retry), op.id, Act(op, retry), max);
    }
  }

  /** What a heartbeat or a finish that took effect adds to the history. */
  ghost function Act(op: Op, retry: bool): Event
    requires op.Heartbeat? || op.Complete? || op.Fail?
  {
    if op.Heartbeat? then Renewed(op.token)
    else if op.Fail? && op.requeue then Returned(op.token, retry)
    else Finished(op.token)
  }

  lemma FinishShape(s: Sys, op: Op, retry: bool)
    requires s.hist.Keys == s.db.tasks.Keys && (op.Heartbeat? || op.Complete? || op.Fail?)
    requires Exec(s.store, s.db, op).1 == Ok
    ensures var s', id := StoreStep(s, op, retry), op.id;
      && id in s.hist && s'.db == Exec(s.store, s.db, op).0 && s'.issued == s.issued
      && s'.db.tasks.Keys == s.db.tasks.Keys
      && (forall x :: x in s.hist && x != id ==> s'.db.tasks[x] == s.db.tasks[x])
      && s'.hist == s.hist[id := s.hist[id] + [Act(op, retry)]]
  {
  }

  lemma ActFits(store: Backend, db: Db, op: Op, retry: bool, h: History, max: nat)
    requires (op.Heartbeat? || op.Complete? || op.Fail?) && Exec(store, db, op).1 == Ok
    requires op.id in db.tasks && RowFits(db.tasks[op.id], h, max)
    requires retry && op.Fail? && op.requeue ==> db.tasks[op.id].attempts < max
    ensures var ts := Exec(store, db, op).0.tasks; op.id in ts && RowFits(ts[op.id], h + [Act(op, retry)], max)
  {
    var t := db.tasks[op.id];
    if op.Heartbeat? {
      RenewedFits(t, h, max, op.until);
    } else if op.Fail? && op.requeue {
      ReturnedFits(t, h, max, op.cause, op.at, retry);
    } else {
      FinishedFits(t, Exec(store, db, op).0.tasks[op.id], h, max);
    }
  }

  lemma StoreKeepsSys(s: Sys, op: Op, retry: bool, max: nat)
    requires SysInv(s, max) && Legal(s, Store(op)) && max > 0
    requires retry ==> op.Fail?
    requires retry && op.requeue && op.id in s.db.tasks && HoldsLease(s.db.tasks[op.id], op.token)
      ==> s.db.tasks[op.id].attempts < max
    ensures SysInv(StoreStep(s, op, retry), max)
  {
    if op.Claim? {
      if Exec(s.store, s.db, op).1.Claimed? {
        ClaimKeepsRows(s, op, max);
        ClaimKeepsTokens(s, op);
      } else if s.store.Memory? {
        ReleaseKeepsSys(s, StoreStep(s, op, retry), op.now, max);
      }
    } else if op.ReleaseExpired? {
      ReleaseKeepsSys(s, StoreStep(s, op, retry), op.now, max);
    } else if op.Create? || op.Cancel? {
      EdgeKeepsSys(s, op, max);
    } else {
      FinishKeepsSys(s, op, retry, max);
    }
  }

  lemma EdgeKeepsSys(s: Sys, op: Op, max: nat)
    requires SysInv(s, max) && Legal(s, Store(op)) && max > 0 && (op.Create? || op.Cancel?)
    ensures SysInv(StoreStep(s, op, false), max)
  {
    var s' := StoreStep(s, op, false);
    if op.Create? {
      CreateKeepsRows(s, op, max);
    } else {
      CancelKeepsRows(s, op, max);
    }
    forall x, i, token | TokenAt(s', x, i, token) ensures TokenAt(s, x, i, token) {
    }
    NoNewClaims(s, s');
  }

  lemma CreateKeepsRows(s: Sys, op: Op, max: nat)
    requires RowsFit(s.db.tasks, s.hist, max) && max > 0 && op.Create? && op.id !in s.db.tasks
    ensures var s' := StoreStep(s, op, false);
      && RowsFit(s'.db.tasks, s'.hist, max) && s'.issued == s.issued
      && (s'.hist == s.hist || s'.hist == s.hist[op.id := []])
  {
    OneRowFits(s.db.tasks, s.hist, max, op.id, NewTask(op.tenant, op.requestId, op.kind, op.partition, op.created), []);
  }

  lemma CancelKeepsRows(s: Sys, op: Op, max: nat)
    requires RowsFit(s.db.tasks, s.hist, max) && op.Cancel?
    ensures var s' := StoreStep(s, op, false);
      RowsFit(s'.db.tasks, s'.hist, max) && s'.issued == s.issued && s'.hist == s.hist
  {
    var id := op.id;
    if Exec(s.store, s.db, op).1 == Ok {
      CancelledFits(s.db.tasks[id], s.hist[id], max, op.at);
      OneRowFits(s.db.tasks, s.hist, max, id, ToCancelled(s.db.tasks[id], op.at), s.hist[id]);
      assert s.hist[id := s.hist[id]] == s.hist;
    }
  }

  lemma QueueKeepsSys(s: Sys, q: QueueOp, max: nat)
    requires SysInv(s, max) && Legal(s, q) && max > 0
    ensures SysInv(QueueStep(s, q, max), max)
  {
    match q
    case Store(op) => StoreKeepsSys(s, op, false, max);
    case HandleFail(id, token, code, at) =>
      var attempt := if id in s.hist then Attempt(s.hist[id], token) else 0;
      var requeue := attempt < max && !(code.Some? && IsPermanent(code.value));
      if id in s.db.tasks && HoldsLease(s.db.tasks[id], token) {
        AttemptOfOpen(s, id, max);
      }
      StoreKeepsSys(s, Fail(id, token, code, requeue, at), true, max);
    case HandleRelease(id, token, at) =>
      StoreKeepsSys(s, Fail(id, token, None, true, at), false, max);
  }

  lemma {:induction false} RunKeepsSys(s: Sys, qs: seq<QueueOp>, max: nat)
    requires SysInv(s, max) && LegalRun(s, qs, max) && max > 0
    ensures SysInv(QueueRun(s, qs, max), max)
    decreases |qs|
  {
    if qs != [] {
      QueueKeepsSys(s, qs[0], max);
      RunKeepsSys(QueueStep(s, qs[0], max), qs[1..], max);
    }
  }

  // ---------------------------------------------------------------- what the histories say

  ghost predicate Reachable(s: Sys, max: nat) {
    exists qs :: LegalRun(Start(s.store), qs, max) && s == QueueRun(Start(s.store), qs, max)
  }

  lemma ReachableInv(s: Sys, max: nat)
    requires Reachable(s, max) && max > 0
    ensures SysInv(s, max)
  {
    var qs :| LegalRun(Start(s.store), qs, max) && s == QueueRun(Start(s.store), qs, max);
    RunKeepsSys(Start(s.store), qs, max);
  }

  /** The one further condition on a finish: both stores refuse a completion stamped
      before the start, and the SQL store a terminal failure too. */
  predicate InTime(store: Backend, t: Task, op: Op) {
    op.Complete? || (store.Sql? && op.Fail? && !op.requeue) ==> !TooEarly(t, op.at)
  }

  /** Heartbeat, Complete and Fail act exactly when the token is that of the task's
      latest claim and nothing has ended that claim yet, however late the clock says
      it is; otherwise they change nothing. */
  lemma OnlyTheOpenClaimActs(s: Sys, max: nat, id: Id, token: Token, op: Op)
    requires Reachable(s, max) && max > 0
    requires (op.Heartbeat? || op.Complete? || op.Fail?) && op.id == id && op.token == token
    ensures Exec(s.store, s.db, op).1 == Ok <==>
      && id in s.hist && id in s.db.tasks && Open(s.hist[id]).Some? && Open(s.hist[id]).value.0 == token
      && InTime(s.store, s.db.tasks[id], op)
    ensures Exec(s.store, s.db, op).1 != Ok ==> Exec(s.store, s.db, op).0.tasks == s.db.tasks && StoreStep(s, op, false) == s
  {
    ReachableInv(s, max);
  }

  lemma {:induction false} FencedPrefix(h: History, max: nat, i: nat)
    requires Fenced(h, max) && i <= |h|
    ensures Fenced(h[..i], max)
  {
    if i < |h| {
      FencedPrefix(h[..|h| - 1], max, i);
      assert h[..|h| - 1][..i] == h[..i];
    } else {
      assert h[..i] == h;
    }
  }

  /** Each claim leaves running at most once. */
  lemma AtMostOneExit(s: Sys, max: nat, id: Id, i: nat, j: nat)
    requires Reachable(s, max) && max > 0 && id in s.hist && i < j < |s.hist[id]|
    requires Exit(s.hist[id][i]) && Exit(s.hist[id][j])
    ensures s.hist[id][i].token != s.hist[id][j].token
  {
    ReachableInv(s, max);
    var a, b := ClaimsBehindExits(s.hist[id], max, i, j);
    if s.hist[id][i].token == s.hist[id][j].token {
      assert TokenAt(s, id, a, s.hist[id][i].token) && TokenAt(s, id, b, s.hist[id][j].token);
    }
  }

  /** Two exits end two claims. */
  lemma ClaimsBehindExits(h: History, max: nat, i: nat, j: nat) returns (a: nat, b: nat)
    requires Fenced(h, max) && i < j < |h| && Exit(h[i]) && Exit(h[j])
    ensures a < b < |h| && h[a].Taken? && h[a].token == h[i].token && h[b].Taken? && h[b].token == h[j].token
  {
    FencedPrefix(h, max, i + 1);
    FencedPrefix(h, max, j + 1);
    assert h[..i + 1][..i] == h[..i] && h[..j + 1][..j] == h[..j];
    assert Open(h[..i + 1]) == None;
    a := OpenIsTaken(h[..i]);
    assert h[..j][..i + 1] == h[..i + 1];
    b := OpenAfter(h[..j], i + 1);
  }

  /** A claim open now but not at an earlier point was taken since. */
  lemma {:induction false} OpenAfter(h: History, from: nat) returns (i: nat)
    requires from <= |h| && Open(h[..from]) == None && Open(h).Some?
    ensures from <= i < |h| && h[i].Taken? && h[i].token == Open(h).value.0
  {
    var front := h[..|h| - 1];
    assert h[..|h|] == h;
    if h[|h| - 1].Taken? {
      i := |h| - 1;
    } else {
      assert front[..from] == h[..from];
      i := OpenAfter(front, from);
    }
  }

  /** A task that ended never changes again. */
  lemma TerminalIsAbsorbing(s: Sys, q: QueueOp, max: nat, id: Id)
    requires SysInv(s, max) && Legal(s, q) && id in s.db.tasks && Terminal(s.db.tasks[id].state)
    ensures var s' := QueueStep(s, q, max);
      id in s'.db.tasks && s'.db.tasks[id] == s.db.tasks[id] && id in s'.hist && s'.hist[id] == s.hist[id]
  {
    match q
    case Store(op) => TerminalStays(s, op, false, id);
    case HandleFail(x, token, code, at) =>
      TerminalStays(s, Fail(x, token, code, false, at), true, id);
      TerminalStays(s, Fail(x, token, code, true, at), true, id);
    case HandleRelease(x, token, at) => TerminalStays(s, Fail(x, token, None, true, at), false, id);
  }

  lemma TerminalStays(s: Sys, op: Op, retry: bool, id: Id)
    requires s.hist.Keys == s.db.tasks.Keys && id in s.hist
    requires Terminal(s.db.tasks[id].state) && (op.Create? ==> op.id !in s.db.tasks)
    ensures var s' := StoreStep(s, op, retry);
      id in s'.db.tasks && s'.db.tasks[id] == s.db.tasks[id] && id in s'.hist && s'.hist[id] == s.hist[id]
  {
    TerminalRowStays(s.store, s.db, op, id);
  }

  lemma TerminalRowStays(store: Backend, db: Db, op: Op, id: Id)
    requires id in db.tasks && Terminal(db.tasks[id].state) && (op.Create? ==> op.id !in db.tasks)
    ensures var (db', r) := Exec(store, db, op);
      && id in db'.tasks && db'.tasks[id] == db.tasks[id]
      && (r.Claimed? ==> r.id != id)
      && ((op.Heartbeat? || op.Complete? || op.Fail?) && op.id == id ==> r == LeaseLost)
  {
  }

  lemma {:induction false} TerminalForever(s: Sys, qs: seq<QueueOp>, max: nat, id: Id)
    requires SysInv(s, max) && LegalRun(s, qs, max) && max > 0 && id in s.db.tasks && Terminal(s.db.tasks[id].state)
    ensures var s' := QueueRun(s, qs, max);
      id in s'.db.tasks && s'.db.tasks[id] == s.db.tasks[id] && id in s'.hist && s'.hist[id] == s.hist[id]
    decreases |qs|
  {
    if qs != [] {
      TerminalIsAbsorbing(s, qs[0], max, id);
      QueueKeepsSys(s, qs[0], max);
      TerminalForever(QueueStep(s, qs[0], max), qs[1..], max, id);
    }
  }

  /** A task is retried at most max - 1 times, and unless leases lapse or workers
      release it, claimed at most max times. */
  lemma AttemptsAreBounded(s: Sys, max: nat, id: Id)
    requires Reachable(s, max) && max > 0 && id in s.hist
    ensures Retries(s.hist[id]) <= max - 1
    ensures OtherReturns(s.hist[id]) == 0 ==> Claims(s.hist[id]) <= max
    ensures id in s.db.tasks && Claims(s.hist[id]) == s.db.tasks[id].attempts
  {
    ReachableInv(s, max);
  }
}
