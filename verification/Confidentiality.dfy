/** What never reaches a client: over whole runs, with sections that straddle the read
    boundary and crashes anywhere. */
module Confidentiality {
  import opened Core
  import opened Projection
  import opened SyncProtocol
  import opened SyncGuarantees

  // ---------------------------------------------------------------- one delivery

  /** A delivered patch leaves every unreadable path as it was. */
  lemma DeliveryAgreesUnseen(tree: Tree, from: Tree, to: Tree, diff: seq<Section>, readable: Readable, p: Path)
    requires IsDiff(from, to, diff) && !readable(p)
    ensures At(Apply(tree, Deliver(diff, readable)), p) == At(tree, p)
  {
    forall s | s in diff ensures WellFormedMeta(s.meta) {
      assert Fits(from, s);
    }
    DeliveryIsReadable(diff, readable, p);
    ApplyAt(tree, Deliver(diff, readable), p);
  }

  lemma DeliveryKeepsOnlyReadable(tree: Tree, from: Tree, to: Tree, diff: seq<Section>, readable: Readable)
    requires IsDiff(from, to, diff) && OnlyReadable(tree, readable)
    ensures OnlyReadable(Apply(tree, Deliver(diff, readable)), readable)
  {
    forall p | p in Apply(tree, Deliver(diff, readable)) ensures readable(p) {
      if !readable(p) {
        DeliveryAgreesUnseen(tree, from, to, diff, readable, p);
      }
    }
  }

  /** In every run, with nothing asked of it: a synchronization commit agrees with the tree
      it was applied to on every path the client may not read. */
  lemma SyncShowsNothingUnreadable(w: World, es: seq<Event>, k: nat, key: Key, sync: Local, p: Path)
    requires LegalRun(w, START, es, false) && k < |es| && es[k] == ApplyPull(key, sync)
    requires !w.readable(key)(p)
    requires var s' := Run(w, START, es[..k + 1]); key in s'.clients && sync in s'.clients[key].git
    ensures var s, s' := Run(w, START, es[..k]), Run(w, START, es[..k + 1]);
      key in s.clients && At(s'.clients[key].git[sync], p) == At(StartTree(s.clients[key]), p)
  {
    LegalPrefix(w, START, es, k, false);
    RunKeeps(w, START, es[..k], false);
    var s := Run(w, START, es[..k]);
    var c := s.clients[key];
    assert ClientOk(w, s, key, c, false);
    var t := s.pulls[c.proc.id];
    assert PullOk(w, s, t, false);
    DeliveryAgreesUnseen(StartTree(c), TreeAt(s.trees, t.from), s.trees[t.result.value.to], t.result.value.diff, w.readable(key), p);
  }

  // ---------------------------------------------------------------- what the client records

  ghost predicate WritesReadable(diff: seq<Section>, readable: Readable) {
    forall s, p :: s in diff && Writes(s, p) ==> readable(p)
  }

  /** What the developer must not do for it: put unreadable files where a first
      synchronization is applied, or push one. Nothing is asked of pulls. */
  ghost predicate Discreet(w: World, s: Sys, e: Event) {
    match e
    case ApplyPull(key, _) =>
      key in s.clients && s.clients[key].base.None? && Waits(s, key) ==>
        var start := StartTree(s.clients[key]);
        FitsAll(start, Delivered(w, s, key)) ==> OnlyReadable(start, w.readable(key))
    case RequestPush(_, key, _, diff, _, byClient) => byClient ==> WritesReadable(diff, w.readable(key))
    case _ => true
  }

  ghost predicate DiscreetRun(w: World, s: Sys, es: seq<Event>)
    decreases |es|
  {
    es != [] ==> Discreet(w, s, es[0]) && DiscreetRun(w, Step(w, s, es[0]), es[1..])
  }

  /** What a client has recorded, or is about to, is readable. */
  ghost predicate ClientReadable(s: Sys, c: Client, readable: Readable) {
    && (c.base.Some? && c.base.value in c.git ==> OnlyReadable(c.git[c.base.value], readable))
    && (c.proc.Synced? && c.proc.sync in c.git ==> OnlyReadable(c.git[c.proc.sync], readable))
    && (c.proc.PushWait? && c.proc.id in s.pushes ==> WritesReadable(s.pushes[c.proc.id].submitted, readable))
  }

  ghost predicate AllReadable(w: World, s: Sys) {
    forall key :: key in s.clients ==> ClientReadable(s, s.clients[key], w.readable(key))
  }

  lemma AppliedIsReadable(w: World, s: Sys, key: Key, sync: Local)
    requires Inv(w, s, false) && key in s.clients && Legal(s, ApplyPull(key, sync)) && Discreet(w, s, ApplyPull(key, sync))
    requires ClientReadable(s, s.clients[key], w.readable(key)) && Waits(s, key)
    ensures var c := s.clients[key];
      ClientReadable(s, ApplySync(c, Delivered(w, s, key), c.proc.id, sync), w.readable(key))
  {
    var c := s.clients[key];
    assert ClientOk(w, s, key, c, false);
    var t := s.pulls[c.proc.id];
    assert PullOk(w, s, t, false);
    if FitsAll(StartTree(c), Delivered(w, s, key)) {
      assert c.base.Some? ==> StartTree(c) == c.git[c.base.value];
      DeliveryKeepsOnlyReadable(StartTree(c), TreeAt(s.trees, t.from), s.trees[t.result.value.to], t.result.value.diff, w.readable(key));
    }
  }

  lemma RecordedIsReadable(w: World, s: Sys, key: Key, next: Option<Token>)
    requires Inv(w, s, false) && key in s.clients && s.clients[key].proc.PushWait? && s.clients[key].head.Some?
    requires ClientReadable(s, s.clients[key], w.readable(key))
    ensures var c := s.clients[key];
      c.proc.id in s.pushes && ClientReadable(s, Recorded(c, next), w.readable(key))
  {
    var c := s.clients[key];
    assert ClientOk(w, s, key, c, false);
    PushKeepsReadable(c.git[c.base.value], c.git[c.head.value], s.pushes[c.proc.id].submitted, w.readable(key));
  }

  /** Whatever else changes, a client that keeps its state file, its checkout and its push
      stays as readable as it was. */
  lemma ClientUntouched(w: World, s: Sys, s': Sys, key: Key)
    requires key in s.clients && key in s'.clients && ClientReadable(s, s.clients[key], w.readable(key))
    requires s'.clients[key] == s.clients[key]
    requires s.clients[key].proc.PushWait? ==> s.clients[key].proc.id in s.pushes
    requires forall id :: id in s.pushes ==> id in s'.pushes && s'.pushes[id].submitted == s.pushes[id].submitted
    ensures ClientReadable(s', s'.clients[key], w.readable(key))
  {
  }

  lemma PushesKeepSubmitted(w: World, s: Sys, e: Event)
    requires Legal(s, e)
    ensures forall id :: id in s.pushes ==> id in Step(w, s, e).pushes && Step(w, s, e).pushes[id].submitted == s.pushes[id].submitted
  {
  }

  /** The client an event is about. */
  function About(e: Event): Option<Key> {
    match e
    case NewWorkspace(key) => Some(key)
    case RequestPull(_, key, _, byClient) => if byClient then Some(key) else None
    case ApplyPull(key, _) => Some(key)
    case HeadMoves(key, _, _) => Some(key)
    case SavePull(key) => Some(key)
    case RequestPush(_, key, _, _, _, byClient) => if byClient then Some(key) else None
    case SavePush(key) => Some(key)
    case Crash(key) => Some(key)
    case _ => None
  }

  lemma OthersUntouched(w: World, s: Sys, e: Event, key: Key)
    requires key in Step(w, s, e).clients && About(e) != Some(key)
    ensures key in s.clients && Step(w, s, e).clients[key] == s.clients[key]
  {
    if About(e).Some? {
      ClientStepMovesOne(w, s, e, key);
    } else {
      ServerStepMovesNone(w, s, e);
    }
  }

  lemma ServerStepMovesNone(w: World, s: Sys, e: Event)
    requires About(e).None?
    ensures Step(w, s, e).clients == s.clients
  {
  }

  lemma ClientStepMovesOne(w: World, s: Sys, e: Event, key: Key)
    requires About(e).Some? && About(e).value != key && key in Step(w, s, e).clients
    ensures key in s.clients && Step(w, s, e).clients[key] == s.clients[key]
  {
    if e.RequestPull? || e.ApplyPull? || e.SavePull? {
      PullStepMovesOne(w, s, e, key);
    } else if e.RequestPush? || e.SavePush? {
      PushStepMovesOne(w, s, e, key);
    } else {
      LocalStepMovesOne(w, s, e, key);
    }
  }

  lemma PullStepMovesOne(w: World, s: Sys, e: Event, key: Key)
    requires About(e).Some? && About(e).value != key && key in Step(w, s, e).clients
    requires e.RequestPull? || e.ApplyPull? || e.SavePull?
    ensures key in s.clients && Step(w, s, e).clients[key] == s.clients[key]
  {
  }

  lemma PushStepMovesOne(w: World, s: Sys, e: Event, key: Key)
    requires About(e).Some? && About(e).value != key && key in Step(w, s, e).clients
    requires e.RequestPush? || e.SavePush?
    ensures key in s.clients && Step(w, s, e).clients[key] == s.clients[key]
  {
  }

  lemma LocalStepMovesOne(w: World, s: Sys, e: Event, key: Key)
    requires About(e).Some? && About(e).value != key && key in Step(w, s, e).clients
    requires e.NewWorkspace? || e.HeadMoves? || e.Crash?
    ensures key in s.clients && Step(w, s, e).clients[key] == s.clients[key]
  {
  }

  ghost predicate ReadableAt(w: World, s: Sys, key: Key) {
    key in s.clients ==> ClientReadable(s, s.clients[key], w.readable(key))
  }

  lemma ApplyPullReadable(w: World, s: Sys, key: Key, sync: Local)
    requires Inv(w, s, false) && ReadableAt(w, s, key) && Legal(s, ApplyPull(key, sync)) && Discreet(w, s, ApplyPull(key, sync))
    ensures ReadableAt(w, ApplyPullStep(w, s, key, sync), key)
  {
    if key in s.clients && Waits(s, key) {
      AppliedIsReadable(w, s, key, sync);
    }
  }

  lemma SavePushReadable(w: World, s: Sys, key: Key)
    requires Inv(w, s, false) && ReadableAt(w, s, key)
    ensures ReadableAt(w, SavePushStep(s, key), key)
  {
    var s' := SavePushStep(s, key);
    if s' != s && s' != CrashStep(s, key) {
      var c := s.clients[key];
      var next := s.pushes[c.proc.id].result.value.next;
      RecordedIsReadable(w, s, key, next);
      OneClientWritten(w, s, key, Recorded(c, next));
    } else {
      CrashReadable(w, s, key);
    }
  }

  lemma OneClientWritten(w: World, s: Sys, key: Key, c: Client)
    requires ClientReadable(s, c, w.readable(key))
    ensures ReadableAt(w, s.(clients := s.clients[key := c]), key)
  {
  }

  lemma CrashReadable(w: World, s: Sys, key: Key)
    requires ReadableAt(w, s, key)
    ensures ReadableAt(w, CrashStep(s, key), key)
  {
  }

  lemma SavePullReadable(w: World, s: Sys, key: Key)
    requires ReadableAt(w, s, key)
    ensures ReadableAt(w, SavePullStep(s, key), key)
  {
  }

  lemma HeadMovesReadable(w: World, s: Sys, key: Key, local: Local, tree: Tree)
    requires Inv(w, s, false) && ReadableAt(w, s, key) && Legal(s, HeadMoves(key, local, tree))
    ensures ReadableAt(w, HeadMovesStep(s, key, local, tree), key)
  {
    if key in s.clients && !s.clients[key].proc.PushWait? {
      var c := s.clients[key];
      assert ClientOk(w, s, key, c, false);
      MovedIsReadable(s, c, local, tree, w.readable(key));
      OneClientWritten(w, s, key, c.(git := c.git[local := tree], head := Some(local)));
    }
  }

  lemma MovedIsReadable(s: Sys, c: Client, local: Local, tree: Tree, readable: Readable)
    requires ClientReadable(s, c, readable) && (local in c.git ==> tree == c.git[local])
    requires (c.base.Some? ==> c.base.value in c.git) && (c.proc.Synced? ==> c.proc.sync in c.git)
    ensures ClientReadable(s, c.(git := c.git[local := tree], head := Some(local)), readable)
  {
  }

  lemma RequestPushReadable(w: World, s: Sys, id: TaskId, key: Key, token: Option<Token>, diff: seq<Section>, strip: bool, byClient: bool)
    requires Inv(w, s, false) && ReadableAt(w, s, key) && Legal(s, RequestPush(id, key, token, diff, strip, byClient))
    requires byClient && WritesReadable(diff, w.readable(key))
    ensures ReadableAt(w, RequestPushStep(w, s, id, key, token, diff, strip, byClient), key)
  {
  }

  lemma RequestPullReadable(w: World, s: Sys, id: TaskId, key: Key, token: Option<Token>, byClient: bool)
    requires ReadableAt(w, s, key)
    ensures ReadableAt(w, RequestPullStep(s, id, key, token, byClient), key)
  {
  }

  lemma OneClientReadable(w: World, s: Sys, e: Event, key: Key)
    requires Inv(w, s, false) && ReadableAt(w, s, key) && Legal(s, e) && Discreet(w, s, e)
    requires About(e) == Some(key)
    ensures ReadableAt(w, Step(w, s, e), key)
  {
    match e
    case NewWorkspace(_) =>
    case Crash(_) =>
    case ApplyPull(_, sync) => ApplyPullReadable(w, s, key, sync);
    case HeadMoves(_, local, tree) => HeadMovesReadable(w, s, key, local, tree);
    case SavePull(_) => SavePullReadable(w, s, key);
    case SavePush(_) => SavePushReadable(w, s, key);
    case RequestPull(id, _, token, byClient) => RequestPullReadable(w, s, id, key, token, byClient);
    case RequestPush(id, _, token, diff, strip, byClient) => RequestPushReadable(w, s, id, key, token, diff, strip, byClient);
  }

  lemma StepKeepsReadable(w: World, s: Sys, e: Event)
    requires Inv(w, s, false) && AllReadable(w, s) && Legal(s, e) && Discreet(w, s, e)
    ensures AllReadable(w, Step(w, s, e))
  {
    var s' := Step(w, s, e);
    PushesKeepSubmitted(w, s, e);
    forall key | key in s'.clients ensures ClientReadable(s', s'.clients[key], w.readable(key)) {
      if About(e) == Some(key) {
        OneClientReadable(w, s, e, key);
        assert ReadableAt(w, s', key);
      } else {
        OthersUntouched(w, s, e, key);
        assert ClientOk(w, s, key, s.clients[key], false);
        ClientUntouched(w, s, s', key);
      }
    }
  }

  lemma {:induction false} RunKeepsReadable(w: World, s: Sys, es: seq<Event>)
    requires Inv(w, s, false) && AllReadable(w, s) && LegalRun(w, s, es, false) && DiscreetRun(w, s, es)
    ensures AllReadable(w, Run(w, s, es))
    decreases |es|
  {
    if es != [] {
      StepKeeps(w, s, es[0], false);
      StepKeepsReadable(w, s, es[0]);
      RunKeepsReadable(w, Step(w, s, es[0]), es[1..]);
    }
  }

  /** In every discreet run, whatever the pulls deliver, the tree a client has recorded
      holds readable files only. */
  lemma RecordedBaseIsReadable(w: World, es: seq<Event>, key: Key)
    requires LegalRun(w, START, es, false) && DiscreetRun(w, START, es)
    requires key in Run(w, START, es).clients && Run(w, START, es).clients[key].base.Some?
    ensures var c := Run(w, START, es).clients[key];
      c.base.value in c.git && OnlyReadable(c.git[c.base.value], w.readable(key))
  {
    RunKeeps(w, START, es, false);
    RunKeepsReadable(w, START, es);
    assert ClientOk(w, Run(w, START, es), key, Run(w, START, es).clients[key], false);
  }

  /** And in a run that is gentle too, the recorded tree is the projection of the commit
      the token names. */
  lemma WorkspaceIsProjection(w: World, es: seq<Event>, key: Key)
    requires LegalRun(w, START, es, true) && DiscreetRun(w, START, es)
    requires key in Run(w, START, es).clients && Run(w, START, es).clients[key].token.Some?
    ensures var s := Run(w, START, es);
      var c := s.clients[key];
      && c.base.Some? && c.base.value in c.git && c.token.value.commit in s.trees
      && c.git[c.base.value] == Project(s.trees[c.token.value.commit], w.readable(key))
  {
    LegalIfGentle(w, START, es);
    WorkspaceIsFaithful(w, es, key);
    RecordedBaseIsReadable(w, es, key);
  }
}
