/** What every run of the sync protocol guarantees. */
module SyncGuarantees {
  import opened Core
  import opened Collections
  import opened Projection
  import opened Patch
  import opened SyncProtocol
  import Enforce

  /** In every run, with crashes anywhere: a client's recorded token and base come
      from one delivered result, and a pull in flight diffs from the client's own commit. */
  lemma StateFileIsOneDelivery(w: World, es: seq<Event>, key: Key)
    requires LegalRun(w, START, es, false)
    ensures var s := Run(w, START, es);
      key in s.clients ==>
        var c := s.clients[key];
        && (c.token.Some? <==> c.base.Some?)
        && (c.token.Some? ==> c.token.value.key == key && c.token.value in s.minted && SameDelivery(s, c))
        && (c.proc.PullWait? ==> c.proc.id in s.pulls && s.pulls[c.proc.id].from == CommitOf(c.token))
  {
    RunKeeps(w, START, es, false);
    var s := Run(w, START, es);
    if key in s.clients {
      assert ClientOk(w, s, key, s.clients[key], false);
    }
  }

  /** In every run, a client's own pull is accepted, whatever is stored by then. */
  lemma ClientPullIsAccepted(w: World, es: seq<Event>, key: Key)
    requires LegalRun(w, START, es, false)
    requires key in Run(w, START, es).clients
    ensures var s := Run(w, START, es);
      ResolvePullBase(s.minted, s.clients[key].token, key) == Success(CommitOf(s.clients[key].token))
  {
    StateFileIsOneDelivery(w, es, key);
  }

  /** In every run a pull task diffs from nothing or from a commit the server signed for the
      same workspace, repository and branch: nobody pulls from another's token. */
  lemma PullTaskBase(w: World, es: seq<Event>, id: TaskId)
    requires LegalRun(w, START, es, false) && id in Run(w, START, es).pulls
    ensures var s := Run(w, START, es);
      var t := s.pulls[id];
      t.from.Some? ==> Token(t.key, t.from.value) in s.minted && t.from.value in s.trees
  {
    RunKeeps(w, START, es, false);
    assert PullOk(w, Run(w, START, es), Run(w, START, es).pulls[id], false);
  }

  lemma {:induction false} LegalPrefix(w: World, s: Sys, es: seq<Event>, n: nat, gentle: bool)
    requires LegalRun(w, s, es, gentle) && n < |es|
    ensures LegalRun(w, s, es[..n], gentle) && Legal(Run(w, s, es[..n]), es[n])
    ensures Run(w, s, es[..n + 1]) == Step(w, Run(w, s, es[..n]), es[n])
    decreases n
  {
    if n == 0 {
      assert es[..1][1..] == [] && es[..0] == [];
    } else {
      LegalPrefix(w, Step(w, s, es[0]), es[1..], n - 1, gentle);
      assert es[..n][1..] == es[1..][..n - 1] && es[..n + 1][1..] == es[1..][..n];
    }
  }

  /** What made a push task acceptable, at the step that created it. */
  ghost predicate AcceptedBy(s: Sys, e: Event, id: TaskId, t: PushTask) {
    && e.RequestPush? && e.id == id && e.key == t.key && e.diff == t.submitted
    && e.token == Some(Token(t.key, t.base)) && Token(t.key, t.base) in s.minted
    && t.key in s.stored && s.stored[t.key] == t.base
  }

  lemma NewPushTask(w: World, s: Sys, e: Event, id: TaskId)
    requires Legal(s, e) && id in Step(w, s, e).pushes
    ensures id in s.pushes ==> SamePush(s.pushes[id], Step(w, s, e).pushes[id])
    ensures id !in s.pushes ==> AcceptedBy(s, e, id, Step(w, s, e).pushes[id])
  {
    if e.RequestPush? && e.id == id {
      PushBaseAccepted(s.stored, s.minted, e.token, e.key, Step(w, s, e).pushes[id].base);
    }
  }

  /** In every run, each push task was accepted at some step, on a base that was then both
      the commit of a minted token and the stored sync point. */
  lemma {:induction false} PushTaskBase(w: World, es: seq<Event>, id: TaskId) returns (k: nat)
    requires LegalRun(w, START, es, false) && id in Run(w, START, es).pushes
    ensures k < |es| && AcceptedBy(Run(w, START, es[..k]), es[k], id, Run(w, START, es).pushes[id])
    decreases |es|
  {
    var n := |es| - 1;
    assert n >= 0;
    LegalPrefix(w, START, es, n, false);
    assert es[..n + 1] == es;
    var s := Run(w, START, es[..n]);
    NewPushTask(w, s, es[n], id);
    if id in s.pushes {
      k := PushTaskBase(w, es[..n], id);
      assert es[..n][..k] == es[..k];
    } else {
      k := n;
    }
  }

  /** What justified a token, at the step that signed it: a pull that read the commit as
      the tip; or a push that landed on its base with nothing dropped and the stored point
      still there, the commit being the base with exactly what was submitted. */
  ghost predicate MintedBy(s: Sys, e: Event, token: Token) {
    match e
    case FinishPull(id, to, _, _) =>
      id in s.pulls && token == Token(s.pulls[id].key, to) && to in s.pulls[id].resolved
    case FinishPush(attempt, _) =>
      && attempt in s.attempts && s.attempts[attempt].landed && s.attempts[attempt].task in s.pushes
      && var a, t := s.attempts[attempt], s.pushes[s.attempts[attempt].task];
         && token == Token(t.key, a.commit) && a.tipBefore == t.base && t.enforced == t.submitted
         && t.key in s.stored && s.stored[t.key] == t.base
         && t.base in s.trees && a.commit in s.trees && s.trees[a.commit] == Apply(s.trees[t.base], t.submitted)
    case _ => false
  }

  lemma NewToken(w: World, s: Sys, e: Event, token: Token)
    requires Inv(w, s, false) && token !in s.minted && token in Step(w, s, e).minted
    ensures MintedBy(s, e, token)
  {
    if e.FinishPush? {
      NewPushToken(w, s, e.attempt, e.completes, token);
    }
  }

  lemma NewPushToken(w: World, s: Sys, attempt: nat, completes: bool, token: Token)
    requires Inv(w, s, false) && token !in s.minted && token in FinishPushStep(s, attempt, completes).minted
    ensures MintedBy(s, FinishPush(attempt, completes), token)
  {
    LandedAsSubmitted(w, s, attempt, false);
    var t := s.pushes[s.attempts[attempt].task];
    assert PushOk(w, s, t);
    KeptAll(t.submitted, w.pushable(t.key));
  }

  /** In every run, each token was signed at some step that justified it. */
  lemma {:induction false} TokensAreJustified(w: World, es: seq<Event>, token: Token) returns (k: nat)
    requires LegalRun(w, START, es, false) && token in Run(w, START, es).minted
    ensures k < |es| && MintedBy(Run(w, START, es[..k]), es[k], token)
    decreases |es|
  {
    var n := |es| - 1;
    assert n >= 0;
    LegalPrefix(w, START, es, n, false);
    assert es[..n + 1] == es;
    var s := Run(w, START, es[..n]);
    if token in s.minted {
      k := TokensAreJustified(w, es[..n], token);
      assert es[..n][..k] == es[..k];
    } else {
      RunKeeps(w, START, es[..n], false);
      NewToken(w, s, es[n], token);
      k := n;
    }
  }

  // ---------------------------------------------------------------- the next push

  /** A step that justifies a token signs it and leaves the stored point where it points:
      a push based on it would be accepted at once. */
  lemma SignedIsCurrent(w: World, s: Sys, e: Event, token: Token)
    requires MintedBy(s, e, token)
    ensures var s' := Step(w, s, e);
      ResolveBaseCommit(s'.stored, s'.minted, Some(token), token.key) == Success(token.commit)
  {
  }

  /** The step finishes a pull or a push of this workspace and branch. */
  ghost predicate FinishesOn(s: Sys, e: Event, key: Key) {
    match e
    case FinishPull(id, _, _, _) => id in s.pulls && s.pulls[id].key == key
    case FinishPush(attempt, _) =>
      attempt in s.attempts && s.attempts[attempt].task in s.pushes && s.pushes[s.attempts[attempt].task].key == key
    case _ => false
  }

  ghost predicate QuietRun(w: World, s: Sys, es: seq<Event>, key: Key)
    decreases |es|
  {
    es != [] ==> !FinishesOn(s, es[0], key) && QuietRun(w, Step(w, s, es[0]), es[1..], key)
  }

  lemma OthersKeepThePoint(w: World, s: Sys, e: Event, key: Key)
    requires !FinishesOn(s, e, key) && key in s.stored
    ensures var s' := Step(w, s, e); key in s'.stored && s'.stored[key] == s.stored[key] && s.minted <= s'.minted
  {
  }

  lemma {:induction false} QuietKeepsThePoint(w: World, s: Sys, es: seq<Event>, key: Key)
    requires QuietRun(w, s, es, key) && key in s.stored
    ensures var s' := Run(w, s, es); key in s'.stored && s'.stored[key] == s.stored[key] && s.minted <= s'.minted
    decreases |es|
  {
    if es != [] {
      OthersKeepThePoint(w, s, es[0], key);
      QuietKeepsThePoint(w, Step(w, s, es[0]), es[1..], key);
    }
  }

  /** After the pull or the push that signed a client's token, and until the next one of
      this workspace and branch finishes, whatever else happens, crashes included: a client
      that recorded the token has its next push base accepted. */
  lemma NextPushIsAccepted(w: World, s: Sys, e: Event, more: seq<Event>, key: Key, token: Token)
    requires MintedBy(s, e, token) && QuietRun(w, Step(w, s, e), more, token.key)
    requires var s' := Run(w, Step(w, s, e), more); key in s'.clients && s'.clients[key].token == Some(token) && token.key == key
    ensures var s' := Run(w, Step(w, s, e), more);
      ResolveBaseCommit(s'.stored, s'.minted, s'.clients[key].token, key) == Success(token.commit)
  {
    SignedIsCurrent(w, s, e, token);
    PushBaseAccepted(Step(w, s, e).stored, Step(w, s, e).minted, Some(token), key, token.commit);
    QuietKeepsThePoint(w, Step(w, s, e), more, key);
  }

  /** And such a push becomes a task with that base, unless enforcement leaves nothing. */
  lemma NextPushIsTaken(w: World, s: Sys, id: TaskId, key: Key, token: Token, diff: seq<Section>, strip: bool)
    requires key in s.clients && ResolveBaseCommit(s.stored, s.minted, Some(token), key) == Success(token.commit)
    ensures var s' := Step(w, s, RequestPush(id, key, Some(token), diff, strip, true));
      !Refused(diff, Kept(diff, w.pushable(key)), strip) ==>
        && id in s'.pushes && s'.pushes[id].key == key && s'.pushes[id].base == token.commit
        && s'.pushes[id].submitted == diff && s'.clients[key].proc == PushWait(id)
  {
  }

  /** The tip of the branch after the first j events. */
  ghost predicate WasTip(w: World, es: seq<Event>, j: nat, branch: Branch, commit: Commit) {
    j <= |es| && branch in Run(w, START, es[..j]).tips && Run(w, START, es[..j]).tips[branch] == commit
  }

  lemma NewlyResolved(w: World, s: Sys, e: Event, id: TaskId, commit: Commit)
    requires Legal(s, e) && id in Step(w, s, e).pulls && commit in Step(w, s, e).pulls[id].resolved
    ensures var branch := Step(w, s, e).pulls[id].key.branch;
      || (id in s.pulls && s.pulls[id].key.branch == branch && commit in s.pulls[id].resolved)
      || (branch in s.tips && s.tips[branch] == commit)
  {
  }

  /** A pull worker's tip was the tip. */
  lemma {:induction false} ResolvedWasTip(w: World, es: seq<Event>, id: TaskId, commit: Commit) returns (j: nat)
    requires LegalRun(w, START, es, false) && id in Run(w, START, es).pulls && commit in Run(w, START, es).pulls[id].resolved
    ensures WasTip(w, es, j, Run(w, START, es).pulls[id].key.branch, commit)
    decreases |es|
  {
    var n := |es| - 1;
    assert n >= 0;
    LegalPrefix(w, START, es, n, false);
    assert es[..n + 1] == es;
    var s, branch := Run(w, START, es[..n]), Run(w, START, es).pulls[id].key.branch;
    NewlyResolved(w, s, es[n], id, commit);
    if branch in s.tips && s.tips[branch] == commit {
      j := n;
    } else {
      j := ResolvedWasTip(w, es[..n], id, commit);
      assert es[..n][..j] == es[..j];
    }
  }

  /** The attempt put its commit on the forge. */
  ghost predicate Landed(s: Sys, attempt: nat, a: Attempt, branch: Branch) {
    && attempt in s.attempts && s.attempts[attempt] == a && a.landed
    && a.task in s.pushes && s.pushes[a.task].key.branch == branch
  }

  /** The step that lands an attempt finds the branch where the worker found it, and
      leaves it at the attempt's commit. */
  ghost predicate LandsAt(w: World, s: Sys, e: Event, attempt: nat, a: Attempt, branch: Branch) {
    && e == LandPush(attempt) && branch in s.tips && s.tips[branch] == a.tipBefore
    && branch in Step(w, s, e).tips && Step(w, s, e).tips[branch] == a.commit
  }

  lemma NewlyLanded(w: World, s: Sys, e: Event, attempt: nat, a: Attempt, branch: Branch)
    requires Inv(w, s, false) && Legal(s, e) && Landed(Step(w, s, e), attempt, a, branch)
    ensures Landed(s, attempt, a, branch) || LandsAt(w, s, e, attempt, a, branch)
  {
    if e.LandPush? {
      assert attempt in s.attempts;
    } else {
      OnlyLandingLands(w, s, e, attempt);
      assert AttemptOk(s, s.attempts[attempt]);
      NewPushTask(w, s, e, s.attempts[attempt].task);
    }
  }

  lemma OnlyLandingLands(w: World, s: Sys, e: Event, attempt: nat)
    requires Legal(s, e) && !e.LandPush? && attempt in Step(w, s, e).attempts && Step(w, s, e).attempts[attempt].landed
    ensures attempt in s.attempts && Step(w, s, e).attempts[attempt] == s.attempts[attempt]
  {
  }

  lemma LandedBefore(w: World, es: seq<Event>, attempt: nat, a: Attempt, branch: Branch)
    requires LegalRun(w, START, es, false) && Landed(Run(w, START, es), attempt, a, branch)
    ensures es != [] && LegalRun(w, START, es[..|es| - 1], false)
    ensures var s := Run(w, START, es[..|es| - 1]);
      Landed(s, attempt, a, branch) || LandsAt(w, s, es[|es| - 1], attempt, a, branch)
  {
    var n := |es| - 1;
    assert n >= 0 && es[..|es|] == es;
    LegalPrefix(w, START, es, n, false);
    RunKeeps(w, START, es[..n], false);
    NewlyLanded(w, Run(w, START, es[..n]), es[n], attempt, a, branch);
  }

  /** No push overwrites what it did not see: in every run an attempt that landed moved its
      branch from the very tip its worker had read to its commit. */
  lemma {:induction false} PushReplacesItsTip(w: World, es: seq<Event>, attempt: nat, a: Attempt, branch: Branch) returns (k: nat)
    requires LegalRun(w, START, es, false) && Landed(Run(w, START, es), attempt, a, branch)
    ensures k < |es| && LandsAt(w, Run(w, START, es[..k]), es[k], attempt, a, branch)
    decreases |es|
  {
    var n := |es| - 1;
    LandedBefore(w, es, attempt, a, branch);
    if Landed(Run(w, START, es[..n]), attempt, a, branch) {
      k := PushReplacesItsTip(w, es[..n], attempt, a, branch);
      assert es[..n][..k] == es[..k];
    } else {
      k := n;
    }
  }

  /** In every run, each token names a commit that was the tip of its branch. */
  lemma TokenWasTip(w: World, es: seq<Event>, token: Token) returns (j: nat)
    requires LegalRun(w, START, es, false) && token in Run(w, START, es).minted
    ensures WasTip(w, es, j, token.key.branch, token.commit)
  {
    var k := TokensAreJustified(w, es, token);
    LegalPrefix(w, START, es, k, false);
    if es[k].FinishPull? {
      j := ResolvedWasTip(w, es[..k], es[k].id, token.commit);
    } else {
      var s := Run(w, START, es[..k]);
      var i := PushReplacesItsTip(w, es[..k], es[k].attempt, s.attempts[es[k].attempt], token.key.branch);
      LegalPrefix(w, START, es[..k], i, false);
      j := i + 1;
    }
    assert es[..k][..j] == es[..j];
  }

  /** In every run, a push result that carries a token names the commit that is the base
      with exactly what the author submitted. */
  lemma PushTokenIsFaithful(w: World, es: seq<Event>, id: TaskId)
    requires LegalRun(w, START, es, false) && id in Run(w, START, es).pushes
    ensures var s := Run(w, START, es);
      var t := s.pushes[id];
      t.result.Some? && t.result.value.next.Some? ==>
        && t.result.value.next.value == Token(t.key, t.result.value.commit)
        && t.base in s.trees && t.result.value.commit in s.trees
        && s.trees[t.result.value.commit] == Apply(s.trees[t.base], t.submitted)
  {
    RunKeeps(w, START, es, false);
    assert PushOk(w, Run(w, START, es), Run(w, START, es).pushes[id]);
  }

  /** What the protocol refuses is what enforcement refuses: of a parsed patch, a push is
      rejected or left without anything to apply exactly when no patch comes out. */
  lemma RefusedIsRejected(parse: SectionParser, raw: Bytes, o: Enforce.Options, effect: Change -> Section, strip: bool)
    requires ParseOf(parse, raw).Success? && Enforce.ValidOptions(o)
    requires forall c :: c in ParseOf(parse, raw).value.changes ==> effect(c).meta == c.meta
    ensures var set_ := ParseOf(parse, raw).value;
      var diff := Effects(set_.changes, effect);
      var result := Enforce.PushOf(o, set_, if strip then Enforce.Strip else Enforce.Reject).value;
      && Kept(diff, PushableBy(o)) == Effects(result.kept, effect)
      && (Refused(diff, Kept(diff, PushableBy(o)), strip) <==> result.patch == "")
  {
    var set_ := ParseOf(parse, raw).value;
    var diff, passing := Effects(set_.changes, effect), Enforce.Passing(o, true);
    PushIsKeeping(o, set_.changes, effect);
    KeptEffects(set_.changes, effect, passing, PushableBy(o));
    EffectsCount(Kept(set_.changes, passing), effect);
    if strip {
      Enforce.RenderNonEmpty(parse, raw, passing);
    } else {
      RejectedIffFewer(parse, raw, o);
    }
  }

  lemma RejectedIffFewer(parse: SectionParser, raw: Bytes, o: Enforce.Options)
    requires ParseOf(parse, raw).Success? && Enforce.ValidOptions(o)
    ensures var changes := ParseOf(parse, raw).value.changes;
      var kept := Kept(changes, Enforce.Passing(o, true));
      Enforce.PushOf(o, ParseOf(parse, raw).value, Enforce.Reject).value.patch == "" <==> kept == [] || |kept| < |changes|
  {
    var changes, passing := ParseOf(parse, raw).value.changes, Enforce.Passing(o, true);
    Enforce.RejectIsAllOrNothing(parse, raw, o);
    Enforce.ParsedIsNumbered(parse, raw);
    KeptAre(changes, passing);
    KeptAll(changes, passing);
  }

  lemma {:induction false} EffectsCount(changes: seq<Change>, effect: Change -> Section)
    ensures |Effects(changes, effect)| == |changes|
  {
    if changes != [] {
      EffectsCount(changes[1..], effect);
    }
  }

  /** In every run, what a push brings to a branch that did not move is its base with
      exactly the sections its author may push. */
  lemma OnlyEnforcedLands(w: World, es: seq<Event>, attempt: nat)
    requires LegalRun(w, START, es, false) && attempt in Run(w, START, es).attempts
    ensures var s := Run(w, START, es);
      var a := s.attempts[attempt];
      && a.task in s.pushes && a.commit in s.trees && s.pushes[a.task].base in s.trees
      && var t := s.pushes[a.task];
         var enforced := Kept(t.submitted, w.pushable(t.key));
         FitsAll(s.trees[t.base], enforced) && (a.tipBefore == t.base ==> s.trees[a.commit] == Apply(s.trees[t.base], enforced))
  {
    RunKeeps(w, START, es, false);
    var s := Run(w, START, es);
    assert AttemptOk(s, s.attempts[attempt]);
    assert PushOk(w, s, s.pushes[s.attempts[attempt].task]);
  }

  /** Where a synchronization leaves HEAD: on its own commit when there was no local work,
      so that nothing is there to push; otherwise with the local work. */
  lemma SyncLeavesHead(w: World, s: Sys, key: Key, sync: Local)
    requires key in s.clients && Waits(s, key) && FitsAll(StartTree(s.clients[key]), Delivered(w, s, key))
    ensures var c := s.clients[key];
      var s' := SavePullStep(Step(w, s, ApplyPull(key, sync)), key);
      && key in s'.clients && s'.clients[key].base == Some(sync) && s'.clients[key].proc.Idle?
      && s'.clients[key].head == (if c.base.None? || c.head.None? || c.head == c.base then Some(sync) else c.head)
      && s'.clients[key].token == Some(Token(s.pulls[c.proc.id].key, s.pulls[c.proc.id].result.value.to))
  {
    var c := s.clients[key];
    var c' := ApplySync(c, Delivered(w, s, key), c.proc.id, sync);
    AppliedStep(w, s, key, sync, Delivered(w, s, key));
    assert c'.proc == Synced(c.proc.id, sync);
  }

  /** Pulling is self-correcting: in every gentle run, whatever crashed before, the finished
      pull a client with a token waits for applies, and what it leaves agrees with the tip
      it was made for. */
  lemma WaitingPullApplies(w: World, es: seq<Event>, key: Key)
    requires LegalRun(w, START, es, true) && key in Run(w, START, es).clients
    requires var s := Run(w, START, es); s.clients[key].token.Some? && Waits(s, key)
    ensures var s := Run(w, START, es);
      var c := s.clients[key];
      var to := s.pulls[c.proc.id].result.value.to;
      && FitsAll(StartTree(c), Delivered(w, s, key)) && to in s.trees
      && Agree(Apply(StartTree(c), Delivered(w, s, key)), s.trees[to], w.readable(key))
  {
    RunKeeps(w, START, es, true);
    var s := Run(w, START, es);
    assert ClientOk(w, s, key, s.clients[key], true);
    ApplySyncAgrees(w, s, key);
  }

  /** Agreement: in every gentle run a client's base agrees with the commit its token
      names on every path it may read, and is that commit's projection exactly when it
      holds nothing else. */
  lemma WorkspaceIsFaithful(w: World, es: seq<Event>, key: Key)
    requires LegalRun(w, START, es, true)
    requires key in Run(w, START, es).clients && Run(w, START, es).clients[key].token.Some?
    ensures var s := Run(w, START, es);
      var c := s.clients[key];
      && c.base.Some? && c.base.value in c.git && c.token.value.commit in s.trees
      && var held, upstream := c.git[c.base.value], s.trees[c.token.value.commit];
         && Agree(held, upstream, w.readable(key))
         && (held == Project(upstream, w.readable(key)) <==> OnlyReadable(held, w.readable(key)))
  {
    RunKeeps(w, START, es, true);
    var s := Run(w, START, es);
    var c := s.clients[key];
    assert ClientOk(w, s, key, c, true);
    ProjectionIsAgreement(c.git[c.base.value], s.trees[c.token.value.commit], w.readable(key));
  }

  // ---------------------------------------------------------------- a first synchronization that crashed

  /** A first synchronization delivers files to create and nothing else. */
  lemma SnapshotOnlyAdds(to: Tree, diff: seq<Section>, s: Section)
    requires IsDiff(map[], to, diff) && s in diff
    ensures s.meta.op.OpAdd? && s.meta.oldPath == "" && s.meta.newPath != "" && s.meta.newPath in to
  {
    assert Fits(map[], s);
    NobodyWrites(diff, s.meta.newPath);
    ApplyAt(map[], diff, s.meta.newPath);
  }

  /** Why CleanStart asks what it asks: with no base recorded, ApplySync applies the
      whole snapshot over whatever HEAD holds. That goes through only if no delivered
      file is already there, and it yields the projection exactly when HEAD held no
      readable file at all. */
  lemma FirstSyncOverFiles(held: Tree, to: Tree, diff: seq<Section>, readable: Readable)
    requires IsDiff(map[], to, diff)
    ensures FitsAll(held, Deliver(diff, readable)) <==>
      forall s :: s in diff && readable(s.meta.newPath) ==> s.meta.newPath !in held
    ensures FitsAll(held, Deliver(diff, readable)) ==>
      (Agree(Apply(held, Deliver(diff, readable)), to, readable) <==> forall p :: p in held ==> !readable(p))
  {
    SnapshotFits(held, to, diff, readable);
    if FitsAll(held, Deliver(diff, readable)) {
      if p :| p in held && readable(p) {
        KeptFileDisagrees(held, to, diff, readable, p);
      } else {
        assert Agree(held, map[], readable);
        DeliveryFollows(held, map[], to, diff, readable);
      }
    }
  }

  lemma SnapshotFits(held: Tree, to: Tree, diff: seq<Section>, readable: Readable)
    requires IsDiff(map[], to, diff)
    ensures FitsAll(held, Deliver(diff, readable)) <==>
      forall s :: s in diff && readable(s.meta.newPath) ==> s.meta.newPath !in held
  {
    SnapshotSections(to, diff);
    DeliveredAre(diff, readable);
    forall s | s in diff ensures Fits(held, s) <==> s.meta.newPath !in held {
      assert Fits(map[], s);
    }
  }

  lemma SnapshotSections(to: Tree, diff: seq<Section>)
    requires IsDiff(map[], to, diff)
    ensures forall s :: s in diff ==>
      s.meta.op.OpAdd? && s.meta.oldPath == "" && s.meta.newPath != "" && Paths(s.meta) == [s.meta.newPath]
  {
    forall s | s in diff
      ensures s.meta.op.OpAdd? && s.meta.oldPath == "" && s.meta.newPath != "" && Paths(s.meta) == [s.meta.newPath]
    {
      SnapshotOnlyAdds(to, diff, s);
    }
  }

  /** A readable file the snapshot fits around is not in the snapshot, and stays. */
  lemma KeptFileDisagrees(held: Tree, to: Tree, diff: seq<Section>, readable: Readable, p: string)
    requires IsDiff(map[], to, diff) && FitsAll(held, Deliver(diff, readable)) && p in held && readable(p)
    ensures !Agree(Apply(held, Deliver(diff, readable)), to, readable)
  {
    var d := Deliver(diff, readable);
    SnapshotSections(to, diff);
    DeliveredAre(diff, readable);
    forall s | s in d ensures !Alters(s, p) {
      assert Fits(held, s);
    }
    forall s | s in diff ensures !Alters(s, p) {
      if Writes(s, p) { assert s in d; }
    }
    NobodyWrites(diff, p);
    NobodyWrites(d, p);
    ApplyAt(held, d, p);
    ApplyAt(map[], diff, p);
  }

  // A first synchronization applied and committed, with a crash before it was recorded.

  function NewFile(path: string, content: string): Section {
    Section(Meta(OpAdd, "", path, 0, 0), "", content)
  }

  lemma NewFileApplied(tree: Tree, path: string, content: string)
    ensures Apply(tree, [NewFile(path, content)]) == tree[path := content]
  {
    var diff := [NewFile(path, content)];
    assert diff[..0] == [];
    forall p ensures At(Apply(tree, diff), p) == At(tree[path := content], p) {
      ApplyAt(tree, diff, p);
      assert WrittenBy(diff, p) == if p == path then Some(content) else None;
      assert !RemovedBy(diff, p);
    }
    SameTree(Apply(tree, diff), tree[path := content]);
  }

  lemma OneNewFile(path: string, content: string, readable: Readable)
    requires path != "" && readable(path)
    ensures var diff := [NewFile(path, content)];
      && IsDiff(map[], map[path := content], diff) && !AnyStraddles(diff, readable) && Deliver(diff, readable) == diff
  {
    var s := NewFile(path, content);
    NewFileApplied(map[], path, content);
    assert Paths(s.meta) == [path];
    assert forall x :: x in [s] ==> Showing(readable)(x);
    KeptAll([s], Showing(readable));
  }

  lemma {:induction false} RunConcat(w: World, s: Sys, a: seq<Event>, b: seq<Event>, gentle: bool)
    ensures Run(w, s, a + b) == Run(w, Run(w, s, a), b)
    ensures LegalRun(w, s, a + b, gentle) <==> LegalRun(w, s, a, gentle) && LegalRun(w, Run(w, s, a), b, gentle)
    decreases |a|
  {
    if a == [] {
      assert a + b == b;
    } else {
      assert (a + b)[1..] == a[1..] + b;
      RunConcat(w, Step(w, s, a[0]), a[1..], b, gentle);
    }
  }

  lemma RunOne(w: World, s: Sys, e: Event, gentle: bool)
    ensures Run(w, s, [e]) == Step(w, s, e)
    ensures LegalRun(w, s, [e], gentle) <==> Legal(s, e) && (gentle ==> Gentle(w, s, e))
  {
    assert [e][1..] == [];
  }

  /** A client without a token asks for a pull, and a worker finishes it. */
  function PullEvents(key: Key, id: TaskId, to: Commit, diff: seq<Section>): seq<Event> {
    [RequestPull(id, key, None, true)] + [ResolveTip(id)] + [FinishPull(id, to, diff, true)]
  }

  ghost function Pulled(s: Sys, key: Key, id: TaskId, to: Commit, diff: seq<Section>): Sys
    requires key in s.clients
  {
    s.(stored := s.stored[key := to], minted := s.minted + {Token(key, to)},
       pulls := s.pulls[id := PullTask(key, None, {to}, Some(PullResult(to, diff)))],
       clients := s.clients[key := s.clients[key].(proc := PullWait(id))])
  }

  lemma PullIsFinished(w: World, s: Sys, key: Key, id: TaskId, to: Commit, diff: seq<Section>)
    requires key in s.clients && s.clients[key].proc.Idle? && s.clients[key].token.None? && id !in s.pulls
    requires key.branch in s.tips && s.tips[key.branch] == to && to in s.trees
    requires IsDiff(map[], s.trees[to], diff) && !AnyStraddles(diff, w.readable(key))
    ensures LegalRun(w, s, PullEvents(key, id, to, diff), true)
    ensures Run(w, s, PullEvents(key, id, to, diff)) == Pulled(s, key, id, to, diff)
  {
    var e1, e2, e3 := RequestPull(id, key, None, true), ResolveTip(id), FinishPull(id, to, diff, true);
    var s1 := RequestPullStep(s, id, key, None, true);
    var s2 := ResolveTipStep(s1, id);
    assert s2.pulls[id] == PullTask(key, None, {to}, None);
    assert FinishPullStep(s2, id, to, diff, true) == Pulled(s, key, id, to, diff);
    RunOne(w, s, e1, true);
    RunOne(w, s1, e2, true);
    RunOne(w, s2, e3, true);
    RunConcat(w, s, [e1], [e2], true);
    RunConcat(w, s, [e1] + [e2], [e3], true);
  }

  /** After the crash: the commit is there, the state file is as it was. */
  ghost function Crashed(key: Key): Sys {
    var tree: Tree := map["f" := "x"];
    Sys(map[0 := tree], map[key.branch := 0], map[key := 0], {Token(key, 0)},
        map[0 := PullTask(key, None, {0}, Some(PullResult(0, [NewFile("f", "x")])))], map[], map[],
        map[key := Client(None, None, map[0 := tree], Some(0), map[0 := 0], map[], Idle)])
  }

  /** And just before it. */
  ghost function Committed(key: Key): Sys {
    Crashed(key).(clients := map[key := Crashed(key).clients[key].(proc := Synced(0, 0))])
  }

  lemma CrashAfterCommit(w: World, key: Key)
    ensures Step(w, Committed(key), Crash(key)) == Crashed(key)
  {
    var c, clients := Crashed(key).clients[key], Crashed(key).clients;
    assert map[key := c.(proc := Synced(0, 0))][key := c] == clients;
  }

  function SetUp(key: Key): seq<Event> {
    [NewWorkspace(key)] + [ForgeMoves(key.branch, 0, map["f" := "x"])]
  }

  function ToCrashed(key: Key): seq<Event> {
    SetUp(key) + PullEvents(key, 0, 0, [NewFile("f", "x")]) + ([ApplyPull(key, 0)] + [Crash(key)])
  }

  ghost function Ready(key: Key): Sys {
    START.(trees := map[0 := map["f" := "x"]], tips := map[key.branch := 0], clients := map[key := NEW_CLIENT])
  }

  lemma ReadyIsReached(w: World, key: Key)
    ensures LegalRun(w, START, SetUp(key), true) && Run(w, START, SetUp(key)) == Ready(key)
  {
    var s1 := START.(clients := map[key := NEW_CLIENT]);
    assert Step(w, START, NewWorkspace(key)) == s1;
    RunOne(w, START, NewWorkspace(key), true);
    RunOne(w, s1, ForgeMoves(key.branch, 0, map["f" := "x"]), true);
    RunConcat(w, START, [NewWorkspace(key)], [ForgeMoves(key.branch, 0, map["f" := "x"])], true);
  }

  lemma RunTwo(w: World, s: Sys, a: Event, s1: Sys, b: Event, s2: Sys, gentle: bool)
    requires Legal(s, a) && Legal(s1, b) && (gentle ==> Gentle(w, s, a) && Gentle(w, s1, b))
    requires Step(w, s, a) == s1 && Step(w, s1, b) == s2
    ensures LegalRun(w, s, [a] + [b], gentle) && Run(w, s, [a] + [b]) == s2
  {
    RunOne(w, s, a, gentle);
    RunOne(w, s1, b, gentle);
    RunConcat(w, s, [a], [b], gentle);
  }

  lemma AppliedStep(w: World, s: Sys, key: Key, sync: Local, patch: seq<Section>)
    requires key in s.clients && Waits(s, key) && Delivered(w, s, key) == patch
    ensures var c := s.clients[key];
      Step(w, s, ApplyPull(key, sync)) == s.(clients := s.clients[key := ApplySync(c, patch, c.proc.id, sync)])
  {
  }

  lemma FirstApply(w: World, key: Key)
    requires w.readable(key)("f")
    ensures var s, e := Pulled(Ready(key), key, 0, 0, [NewFile("f", "x")]), ApplyPull(key, 0);
      Legal(s, e) && Gentle(w, s, e) && Step(w, s, e) == Committed(key)
  {
    var diff := [NewFile("f", "x")];
    var s := Pulled(Ready(key), key, 0, 0, diff);
    OneNewFile("f", "x", w.readable(key));
    AppliedStep(w, s, key, 0, diff);
    FirstClient(key);
    assert s.clients[key := Committed(key).clients[key]] == Committed(key).clients;
  }

  lemma FirstClient(key: Key)
    ensures var c := NEW_CLIENT.(proc := PullWait(0));
      StartTree(c) == map[] && ApplySync(c, [NewFile("f", "x")], 0, 0) == Committed(key).clients[key]
  {
    NewFileApplied(map[], "f", "x");
  }

  lemma ApplyAndCrash(w: World, key: Key)
    requires w.readable(key)("f")
    ensures var s, es := Pulled(Ready(key), key, 0, 0, [NewFile("f", "x")]), [ApplyPull(key, 0)] + [Crash(key)];
      LegalRun(w, s, es, true) && Run(w, s, es) == Crashed(key)
  {
    FirstApply(w, key);
    CrashAfterCommit(w, key);
    var s := Pulled(Ready(key), key, 0, 0, [NewFile("f", "x")]);
    RunTwo(w, s, ApplyPull(key, 0), Committed(key), Crash(key), Crashed(key), true);
  }

  lemma CrashedIsReached(w: World, key: Key)
    requires w.readable(key)("f")
    ensures LegalRun(w, START, ToCrashed(key), true) && Run(w, START, ToCrashed(key)) == Crashed(key)
  {
    var diff := [NewFile("f", "x")];
    OneNewFile("f", "x", w.readable(key));
    ReadyIsReached(w, key);
    PullIsFinished(w, Ready(key), key, 0, 0, diff);
    ApplyAndCrash(w, key);
    RunConcat(w, START, SetUp(key), PullEvents(key, 0, 0, diff), true);
    RunConcat(w, START, SetUp(key) + PullEvents(key, 0, 0, diff), [ApplyPull(key, 0)] + [Crash(key)], true);
  }

  /** A patch that does not fit, over HEAD and with no base: the command ends, the client
      is where it was. */
  lemma RefusedApply(w: World, s: Sys, key: Key, sync: Local)
    requires key in s.clients && Waits(s, key) && s.clients[key].base.None? && sync !in s.clients[key].git
    requires !FitsAll(StartTree(s.clients[key]), Delivered(w, s, key))
    ensures Legal(s, ApplyPull(key, sync)) && Gentle(w, s, ApplyPull(key, sync))
    ensures Step(w, s, ApplyPull(key, sync)) == s.(clients := s.clients[key := s.clients[key].(proc := Idle)])
  {
  }

  lemma SecondPullDoesNotFit(w: World, key: Key)
    requires w.readable(key)("f")
    ensures var s := Pulled(Crashed(key), key, 1, 0, [NewFile("f", "x")]);
      Waits(s, key) && !FitsAll(StartTree(s.clients[key]), Delivered(w, s, key))
  {
    var diff := [NewFile("f", "x")];
    OneNewFile("f", "x", w.readable(key));
    assert !Fits(map["f" := "x"], diff[0]) && diff[0] in diff;
  }

  lemma RetryPulled(w: World, key: Key)
    requires w.readable(key)("f")
    ensures var es := PullEvents(key, 1, 0, [NewFile("f", "x")]);
      LegalRun(w, Crashed(key), es, true) && Run(w, Crashed(key), es) == Pulled(Crashed(key), key, 1, 0, [NewFile("f", "x")])
  {
    OneNewFile("f", "x", w.readable(key));
    PullIsFinished(w, Crashed(key), key, 1, 0, [NewFile("f", "x")]);
  }

  lemma RefusedRun(w: World, key: Key)
    requires w.readable(key)("f")
    ensures var es := PullEvents(key, 1, 0, [NewFile("f", "x")]) + [ApplyPull(key, 1)];
      LegalRun(w, Crashed(key), es, true) && Run(w, Crashed(key), es).clients == Crashed(key).clients
  {
    var diff, s := [NewFile("f", "x")], Crashed(key);
    var s1, e := Pulled(s, key, 1, 0, diff), ApplyPull(key, 1);
    RetryPulled(w, key);
    SecondPullDoesNotFit(w, key);
    RefusedApply(w, s1, key, 1);
    RunOne(w, s1, e, true);
    RunConcat(w, s, PullEvents(key, 1, 0, diff), [e], true);
    assert s1.clients[key := s1.clients[key].(proc := Idle)] == s.clients;
  }

  /** The retry delivers the file again and git refuses to create it over the commit the
      crash left; the client is where it was, in a run that keeps faithfulness. */
  lemma RetryIsRefused(w: World, key: Key)
    requires w.readable(key)("f")
    ensures var es := ToCrashed(key) + (PullEvents(key, 1, 0, [NewFile("f", "x")]) + [ApplyPull(key, 1)]);
      LegalRun(w, START, es, true) && Run(w, START, es).clients == Crashed(key).clients
  {
    RefusedRun(w, key);
    CrashedIsReached(w, key);
    RunConcat(w, START, ToCrashed(key), PullEvents(key, 1, 0, [NewFile("f", "x")]) + [ApplyPull(key, 1)], true);
  }

  function ReplacedEvents(key: Key): seq<Event> {
    [ForgeMoves(key.branch, 1, map["g" := "y"])] + PullEvents(key, 1, 1, [NewFile("g", "y")]) + ([ApplyPull(key, 1)] + [SavePull(key)])
  }

  ghost function Replaced(key: Key): Sys {
    var s := Crashed(key);
    s.(trees := s.trees[1 := map["g" := "y"]], tips := s.tips[key.branch := 1])
  }

  /** The client recorded a file that upstream does not have. */
  ghost predicate Unfaithful(s: Sys, key: Key) {
    && key in s.clients && s.clients[key].token == Some(Token(key, 1)) && s.clients[key].base == Some(1)
    && 1 in s.clients[key].git && s.clients[key].git[1] == map["f" := "x", "g" := "y"]
    && 1 in s.trees && s.trees[1] == map["g" := "y"]
  }

  /** But if upstream replaced the file between the crash and the retry, the patch fits:
      the client records a tree with a file upstream no longer has. */
  lemma RetryOverReplacedFile(w: World, key: Key)
    requires w.readable(key)("f") && w.readable(key)("g")
    ensures var es := ToCrashed(key) + ReplacedEvents(key);
      && LegalRun(w, START, es, false) && Unfaithful(Run(w, START, es), key)
      && !Agree(map["f" := "x", "g" := "y"], map["g" := "y"], w.readable(key))
  {
    CrashedIsReached(w, key);
    LegalIfGentle(w, START, ToCrashed(key));
    ReplacedRun(w, key);
    RunConcat(w, START, ToCrashed(key), ReplacedEvents(key), false);
    assert "f"[0] != "g"[0];
    assert At(map["f" := "x", "g" := "y"], "f") != At(map["g" := "y"], "f");
  }

  lemma ReplacedPull(w: World, key: Key)
    requires w.readable(key)("g")
    ensures var es := [ForgeMoves(key.branch, 1, map["g" := "y"])] + PullEvents(key, 1, 1, [NewFile("g", "y")]);
      && LegalRun(w, Crashed(key), es, false)
      && Run(w, Crashed(key), es) == Pulled(Replaced(key), key, 1, 1, [NewFile("g", "y")])
  {
    var s, diff, move := Crashed(key), [NewFile("g", "y")], ForgeMoves(key.branch, 1, map["g" := "y"]);
    RunOne(w, s, move, false);
    assert Step(w, s, move) == Replaced(key);
    OneNewFile("g", "y", w.readable(key));
    PullIsFinished(w, Replaced(key), key, 1, 1, diff);
    LegalIfGentle(w, Replaced(key), PullEvents(key, 1, 1, diff));
    RunConcat(w, s, [move], PullEvents(key, 1, 1, diff), false);
  }

  lemma ReplacedRun(w: World, key: Key)
    requires w.readable(key)("g")
    ensures LegalRun(w, Crashed(key), ReplacedEvents(key), false) && Unfaithful(Run(w, Crashed(key), ReplacedEvents(key)), key)
  {
    var s, diff, move := Crashed(key), [NewFile("g", "y")], ForgeMoves(key.branch, 1, map["g" := "y"]);
    ReplacedPull(w, key);
    ApplyAndSave(w, key);
    RunConcat(w, s, [move] + PullEvents(key, 1, 1, diff), [ApplyPull(key, 1)] + [SavePull(key)], false);
  }

  lemma {:induction false} LegalIfGentle(w: World, s: Sys, es: seq<Event>)
    requires LegalRun(w, s, es, true)
    ensures LegalRun(w, s, es, false)
    decreases |es|
  {
    if es != [] {
      LegalIfGentle(w, Step(w, s, es[0]), es[1..]);
    }
  }

  lemma ApplyAndSave(w: World, key: Key)
    requires w.readable(key)("g")
    ensures var s, es := Pulled(Replaced(key), key, 1, 1, [NewFile("g", "y")]), [ApplyPull(key, 1)] + [SavePull(key)];
      LegalRun(w, s, es, false) && Unfaithful(Run(w, s, es), key)
  {
    var s := Pulled(Replaced(key), key, 1, 1, [NewFile("g", "y")]);
    var s1 := s.(clients := map[key := Merged()]);
    SecondApply(w, key);
    RunTwo(w, s, ApplyPull(key, 1), s1, SavePull(key), SavePullStep(s1, key), false);
  }

  ghost function Merged(): Client {
    var tree: Tree, both: Tree := map["f" := "x"], map["f" := "x", "g" := "y"];
    Client(None, None, map[0 := tree, 1 := both], Some(1), map[0 := 0, 1 := 1], map[], Synced(1, 1))
  }

  lemma SecondApply(w: World, key: Key)
    requires w.readable(key)("g")
    ensures var s := Pulled(Replaced(key), key, 1, 1, [NewFile("g", "y")]);
      Legal(s, ApplyPull(key, 1)) && Step(w, s, ApplyPull(key, 1)) == s.(clients := map[key := Merged()])
  {
    OneNewFile("g", "y", w.readable(key));
    var s := Pulled(Replaced(key), key, 1, 1, [NewFile("g", "y")]);
    AppliedStep(w, s, key, 1, [NewFile("g", "y")]);
    MergedApply(key);
    assert s.clients[key := Merged()] == map[key := Merged()];
  }

  lemma MergedApply(key: Key)
    ensures var c := Crashed(key).clients[key].(proc := PullWait(1));
      ApplySync(c, [NewFile("g", "y")], 1, 1) == Merged()
  {
    var diff, tree: Tree := [NewFile("g", "y")], map["f" := "x"];
    assert "f"[0] != "g"[0];
    NewFileApplied(tree, "g", "y");
    assert tree["g" := "y"] == map["f" := "x", "g" := "y"];
    assert FitsAll(tree, diff);
  }
}
