/** The client's checkout and the sync-point table as the code updates them, tied
    to the steps of the protocol. */
module Workspace {
  import opened Core
  import opened Projection
  import opened SyncProtocol

  /** The fields ApplySync and RecordPush change; `made` and `landed` are what the
      synchronization commits' trailers record. */
  class Checkout {
    var token: Option<Token>
    var base: Option<Local>
    var git: map<Local, Tree>
    var head: Option<Local>
    var made: map<Local, TaskId>
    var landed: map<Local, TaskId>

    ghost function At(proc: Proc): Client
      reads this
    {
      Client(token, base, git, head, made, landed, proc)
    }

    constructor ()
      ensures At(Idle) == NEW_CLIENT
    {
      token, base, git, head, made, landed := None, None, map[], None, map[], map[];
    }

    /** Apply, commit, replay, and only then record. `replayed` is what the rebase of
        local commits left as HEAD, None when it conflicts; `detached` is a HEAD on no
        branch, which cannot be rebased. Whatever fails, the state file keeps the old
        token with the old base; when nothing fails, the client is where the protocol's
        apply and save steps leave it. */
    method ApplySync(patch: seq<Section>, id: TaskId, sync: Local, detached: bool, replayed: Option<(Local, Tree)>, next: Token)
      returns (ok: bool)
      requires base.Some? ==> base.value in git
      requires head.Some? ==> head.value in git
      requires sync !in git && (replayed.Some? ==> replayed.value.0 !in git && replayed.value.0 != sync)
      modifies this
      ensures !ok ==> token == old(token) && base == old(base)
      ensures ok <==>
        FitsAll(StartTree(old(At(PullWait(id)))), patch) && (old(InPlace(At(PullWait(id)))) || (!detached && replayed.Some?))
      ensures ok ==>
        var c := SyncProtocol.ApplySync(old(At(PullWait(id))), patch, id, sync);
        var c' := if old(InPlace(At(PullWait(id)))) then c
                  else c.(git := c.git[replayed.value.0 := replayed.value.1], head := Some(replayed.value.0));
        At(Idle) == c'.(token := Some(next), base := Some(sync), proc := Idle)
    {
      var inPlace := base.None? || head.None? || head == base;
      var start: Tree := map[];
      if inPlace {
        if head.Some? { start := git[head.value]; }
      } else {
        if detached {
          return false;
        }
        start := git[base.value];           // checkout --detach base
      }
      if !FitsAll(start, patch) {
        return false;                       // the developer is put back where they were
      }
      git, made := git[sync := Projection.Apply(start, patch)], made[sync := id];
      if inPlace {
        head := Some(sync);
      } else {
        if replayed.None? {
          return false;                     // rebase --abort
        }
        git, head := git[replayed.value.0 := replayed.value.1], Some(replayed.value.0);
      }
      token, base := Some(next), Some(sync);
      ok := true;
    }

    /** The push landed and left the workspace faithful: the protocol's save step. */
    method RecordPush(id: TaskId, next: Token, ghost s: Sys, ghost key: Key) returns (ok: bool)
      requires key in s.clients && s.clients[key] == At(PushWait(id))
      requires id in s.pushes && s.pushes[id].result.Some? && s.pushes[id].result.value.next == Some(next)
      modifies this
      ensures ok <==> old(head.Some?)
      ensures SavePushStep(s, key) == s.(clients := s.clients[key := At(Idle)])
      ensures ok ==> token == Some(next) && base == old(head) && head == old(head)
      ensures !ok ==> At(Idle) == old(At(Idle))
    {
      if head.None? {
        return false;
      }
      token, base, landed := Some(next), head, landed[head.value := id];
      ok := true;
    }
  }

  datatype PointError = NotFound | Conflict

  /** The stored sync points, with the tokens signed so far. */
  class SyncPoints {
    var points: map<Key, Commit>
    ghost var signed: set<Token>

    ghost predicate Matches(s: Sys)
      reads this
    {
      s.stored == points && s.minted == signed
    }

    constructor ()
      ensures Matches(START)
    {
      points, signed := map[], {};
    }

    /** Moves a point from the commit the caller names; None names no point at all. */
    method CompareAndSet(key: Key, commit: Commit, expected: Option<Commit>) returns (r: Result<(), PointError>)
      modifies this`points
      ensures r.Success? <==> (if key in old(points) then expected == Some(old(points)[key]) else expected.None?)
      ensures r.Success? ==> points == old(points)[key := commit]
      ensures r.Failure? ==> points == old(points) && r.error == if key in old(points) then Conflict else NotFound
    {
      if key !in points && expected.Some? {
        return Failure(NotFound);
      }
      if key in points && expected != Some(points[key]) {
        return Failure(Conflict);
      }
      points := points[key := commit];
      r := Success(());
    }

    /** recordPullSyncPoint: put the tip, whatever is stored, and sign for it. This is what
        the protocol's pull step does to the stored points and the tokens. */
    method RecordPull(key: Key, tip: Commit, ghost s: Sys, ghost id: TaskId, ghost diff: seq<Section>, ghost completes: bool)
      returns (token: Token)
      requires Matches(s) && id in s.pulls && s.pulls[id].key == key && tip in s.pulls[id].resolved
      modifies this
      ensures Matches(FinishPullStep(s, id, tip, diff, completes))
      ensures token == Token(key, tip) && token in signed
    {
      points := points[key := tip];
      token := Token(key, tip);
      signed := signed + {token};
    }

    /** advanceSyncPoint: a lost comparison is no error, only no token. */
    method Advance(key: Key, base: Commit, commit: Commit) returns (next: Option<Token>)
      modifies this
      ensures next == if key in old(points) && old(points)[key] == base then Some(Token(key, commit)) else None
      ensures points == if next.Some? then old(points)[key := commit] else old(points)
      ensures signed == if next.Some? then old(signed) + {next.value} else old(signed)
    {
      var r := CompareAndSet(key, commit, Some(base));
      if r.Failure? {
        return None;
      }
      next := Some(Token(key, commit));
      signed := signed + {next.value};
    }

    /** The end of handlePush, after the commit landed: the point moves only for a push that
        went onto its own base whole. Stored points, tokens and result are those of the
        protocol's push step. */
    method FinishPush(key: Key, base: Commit, rebased: bool, dropped: int, commit: Commit,
                      ghost s: Sys, ghost attempt: nat, ghost completes: bool) returns (result: PushResult)
      requires Matches(s) && attempt in s.attempts && s.attempts[attempt].landed && s.attempts[attempt].task in s.pushes
      requires var a, t := s.attempts[attempt], s.pushes[s.attempts[attempt].task];
        t.key == key && t.base == base && rebased == (a.tipBefore != base) && dropped == Dropped(t) && a.commit == commit
      modifies this
      ensures Matches(FinishPushStep(s, attempt, completes))
      ensures result.commit == commit && (result.next.Some? <==> MayAdvance(s, attempt))
      ensures var task := s.attempts[attempt].task;
        completes && s.pushes[task].result.None? ==> FinishPushStep(s, attempt, completes).pushes[task].result == Some(result)
    {
      result := PushResult(commit, None);
      if !rebased && dropped == 0 {
        var next := Advance(key, base, commit);
        result := PushResult(commit, next);
      }
    }
  }
}
