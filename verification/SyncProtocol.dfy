/** Sync points: clients, signed tokens, the stored sync point, pull and push
    workers, and crashes, as one state machine. A signature is an unforgeable
    record that the server minted the token. */
module SyncProtocol {
  import opened Core
  import opened Collections
  import opened Projection

  type Commit = nat
  type Local = nat     // a commit of a client's own repository
  type TaskId = nat

  datatype Branch = Branch(repo: string, name: string)

  datatype Key = Key(workspace: string, branch: Branch)

  datatype Token = Token(key: Key, commit: Commit)

  datatype Refusal = UnknownSyncPoint | StaleSyncPoint | BadRequest

  /** What stays fixed in a run: who may read what, and which sections who may push. */
  datatype World = World(readable: Key -> Readable, pushable: Key -> Section -> bool)

  datatype PullResult = PullResult(to: Commit, diff: seq<Section>)

  datatype PullTask = PullTask(key: Key, from: Option<Commit>, resolved: set<Commit>, result: Option<PullResult>)

  datatype PushResult = PushResult(commit: Commit, next: Option<Token>)

  datatype PushTask = PushTask(key: Key, base: Commit, submitted: seq<Section>, enforced: seq<Section>, result: Option<PushResult>)

  datatype Attempt = Attempt(task: TaskId, tipBefore: Commit, commit: Commit, landed: bool)

  /** Where a client command stands; a crash at any point returns it to Idle. */
  datatype Proc = Idle | PullWait(id: TaskId) | Synced(id: TaskId, sync: Local) | PushWait(id: TaskId)

  datatype Client = Client(
    token: Option<Token>, base: Option<Local>,     // the state file
    git: map<Local, Tree>, head: Option<Local>,    // the checkout
    made: map<Local, TaskId>,                      // which pull a synchronization commit applied
    landed: map<Local, TaskId>,                    // which push left HEAD here
    proc: Proc)

  datatype Sys = Sys(
    trees: map<Commit, Tree>, tips: map<Branch, Commit>,
    stored: map<Key, Commit>, minted: set<Token>,
    pulls: map<TaskId, PullTask>, pushes: map<TaskId, PushTask>, attempts: map<nat, Attempt>,
    clients: map<Key, Client>)

  const START := Sys(map[], map[], map[], {}, map[], map[], map[], map[])

  const NEW_CLIENT := Client(None, None, map[], None, map[], map[], Idle)

  // ---------------------------------------------------------------- the server's two acceptance checks

  /** resolvePullBase: where a pull diffs from is the client's own token. */
  function ResolvePullBase(minted: set<Token>, token: Option<Token>, key: Key): Result<Option<Commit>, Refusal> {
    if token.None? then Success(None)
    else if token.value !in minted then Failure(BadRequest)
    else if token.value.key != key then Failure(BadRequest)
    else Success(Some(token.value.commit))
  }

  /** resolveBaseCommit: what a push may be based on. */
  function ResolveBaseCommit(stored: map<Key, Commit>, minted: set<Token>, token: Option<Token>, key: Key): Result<Commit, Refusal> {
    if key !in stored then Failure(UnknownSyncPoint)
    else if token.None? then Failure(StaleSyncPoint)
    else if token.value !in minted then Failure(BadRequest)
    else if token.value.key != key then Failure(BadRequest)
    else if token.value.commit != stored[key] then Failure(StaleSyncPoint)
    else Success(stored[key])
  }

  /** A pull starts from nothing, or from the commit of a token the server minted for this
      workspace, repository and branch; no stored point can refuse it. */
  lemma PullBaseAccepted(minted: set<Token>, token: Option<Token>, key: Key, from: Option<Commit>)
    ensures ResolvePullBase(minted, token, key) == Success(from) <==>
      (token.None? && from.None?) || (from.Some? && token == Some(Token(key, from.value)) && Token(key, from.value) in minted)
    ensures ResolvePullBase(minted, token, key).Success? || ResolvePullBase(minted, token, key) == Failure(BadRequest)
  {
  }

  /** A push base is accepted exactly when it is the commit of a token the server
      minted for this workspace, repository and branch, and the stored sync point. */
  lemma PushBaseAccepted(stored: map<Key, Commit>, minted: set<Token>, token: Option<Token>, key: Key, base: Commit)
    ensures ResolveBaseCommit(stored, minted, token, key) == Success(base) <==>
      token == Some(Token(key, base)) && Token(key, base) in minted && key in stored && stored[key] == base
  {
    if token.Some? && token.value.key == key {
      assert token.value == Token(key, token.value.commit);
    }
  }

  // ---------------------------------------------------------------- the client's checkout

  /** Nothing local to replay: the patch is applied where HEAD is. */
  predicate InPlace(c: Client) {
    c.base.None? || c.head.None? || c.head == c.base
  }

  function StartTree(c: Client): Tree {
    if InPlace(c) then (if c.head.Some? && c.head.value in c.git then c.git[c.head.value] else map[])
    else if c.base.value in c.git then c.git[c.base.value] else map[]
  }

  /** applyAndCommit: a patch that does not fit leaves the checkout as it was. */
  function ApplySync(c: Client, patch: seq<Section>, id: TaskId, sync: Local): Client {
    if !FitsAll(StartTree(c), patch) then c.(proc := Idle)
    else
      c.(git := c.git[sync := Apply(StartTree(c), patch)],
         head := if InPlace(c) then Some(sync) else c.head,
         made := c.made[sync := id],
         proc := Synced(id, sync))
  }

  function Dropped(t: PushTask): int {
    |t.submitted| - |t.enforced|
  }

  function CommitOf(token: Option<Token>): Option<Commit> {
    if token.None? then None else Some(token.value.commit)
  }

  function TreeAt(trees: map<Commit, Tree>, c: Option<Commit>): Tree {
    if c.Some? && c.value in trees then trees[c.value] else map[]
  }

  // ---------------------------------------------------------------- steps

  datatype Event =
    | NewWorkspace(key: Key)
    | ForgeMoves(branch: Branch, commit: Commit, tree: Tree)
    | RequestPull(id: TaskId, key: Key, token: Option<Token>, byClient: bool)
    | ResolveTip(id: TaskId)
    | FinishPull(id: TaskId, to: Commit, diff: seq<Section>, completes: bool)
    | ApplyPull(key: Key, sync: Local)
    | HeadMoves(key: Key, local: Local, tree: Tree)
    | SavePull(key: Key)
    | RequestPush(id: TaskId, key: Key, token: Option<Token>, diff: seq<Section>, strip: bool, byClient: bool)
    | StartPush(id: TaskId, attempt: nat, commit: Commit, rebased: Tree)
    | LandPush(attempt: nat)
    | FinishPush(attempt: nat, completes: bool)
    | SavePush(key: Key)
    | Crash(key: Key)

  function NewWorkspaceStep(s: Sys, key: Key): Sys {
    if key in s.clients then s else s.(clients := s.clients[key := NEW_CLIENT])
  }

  /** The branch moves on the forge, by a push that did not come through nit or a reset. */
  function ForgeMovesStep(s: Sys, branch: Branch, commit: Commit, tree: Tree): Sys {
    s.(trees := if commit in s.trees then s.trees else s.trees[commit := tree], tips := s.tips[branch := commit])
  }

  function RequestPullStep(s: Sys, id: TaskId, key: Key, token: Option<Token>, byClient: bool): Sys {
    match ResolvePullBase(s.minted, token, key)
    case Failure(_) => s
    case Success(from) =>
      s.(pulls := s.pulls[id := PullTask(key, from, {}, None)],
         clients := if byClient && key in s.clients then s.clients[key := s.clients[key].(proc := PullWait(id))] else s.clients)
  }

  /** A pull worker reads the tip; a retried task may read it again, later. */
  function ResolveTipStep(s: Sys, id: TaskId): Sys {
    if id !in s.pulls || s.pulls[id].key.branch !in s.tips then s
    else s.(pulls := s.pulls[id := s.pulls[id].(resolved := s.pulls[id].resolved + {s.tips[s.pulls[id].key.branch]})])
  }

  /** recordPullSyncPoint: Put and mint, however long ago the tip was read. Only the
      attempt that still holds the task's lease records its result. */
  function FinishPullStep(s: Sys, id: TaskId, to: Commit, diff: seq<Section>, completes: bool): Sys {
    if id !in s.pulls || to !in s.pulls[id].resolved then s
    else
      var t := s.pulls[id];
      s.(stored := s.stored[t.key := to],
         minted := s.minted + {Token(t.key, to)},
         pulls := if completes && t.result.None? then s.pulls[id := t.(result := Some(PullResult(to, diff)))] else s.pulls)
  }

  function ApplyPullStep(w: World, s: Sys, key: Key, sync: Local): Sys {
    if key !in s.clients then s
    else
      var c := s.clients[key];
      if !c.proc.PullWait? || c.proc.id !in s.pulls || s.pulls[c.proc.id].result.None? then s
      else s.(clients := s.clients[key :=
        ApplySync(c, Deliver(s.pulls[c.proc.id].result.value.diff, w.readable(key)), c.proc.id, sync)])
  }

  /** HEAD moves: to a new commit, made by the developer or by a rebase; or to one the
      checkout holds, by a reset, a checkout, or a synchronization cut short between
      detaching HEAD and coming back to the branch. */
  function HeadMovesStep(s: Sys, key: Key, local: Local, tree: Tree): Sys {
    if key !in s.clients || s.clients[key].proc.PushWait? then s
    else s.(clients := s.clients[key := s.clients[key].(git := s.clients[key].git[local := tree], head := Some(local))])
  }

  /** record: both fields change in one rename of the state file. */
  function SavePullStep(s: Sys, key: Key): Sys {
    if key !in s.clients then s
    else
      var c := s.clients[key];
      if !c.proc.Synced? || c.proc.id !in s.pulls || s.pulls[c.proc.id].result.None? then s
      else s.(clients := s.clients[key :=
        c.(token := Some(Token(s.pulls[c.proc.id].key, s.pulls[c.proc.id].result.value.to)), base := Some(c.proc.sync), proc := Idle)])
  }

  /** Rejected for what was dropped, or nothing left to apply. */
  predicate Refused(diff: seq<Section>, enforced: seq<Section>, strip: bool) {
    enforced == [] || (!strip && |enforced| < |diff|)
  }

  function RequestPushStep(w: World, s: Sys, id: TaskId, key: Key, token: Option<Token>, diff: seq<Section>, strip: bool, byClient: bool): Sys {
    match ResolveBaseCommit(s.stored, s.minted, token, key)
    case Failure(_) => s
    case Success(base) =>
      var enforced := Kept(diff, w.pushable(key));
      if Refused(diff, enforced, strip) then s
      else
        s.(pushes := s.pushes[id := PushTask(key, base, diff, enforced, None)],
           clients := if byClient && key in s.clients then s.clients[key := s.clients[key].(proc := PushWait(id))] else s.clients)
  }

  /** The worker applies the enforced patch to the base, and replays onto the tip
      when the branch has moved; `rebased` is whatever that replay produced. */
  function StartPushStep(s: Sys, id: TaskId, attempt: nat, commit: Commit, rebased: Tree): Sys {
    if id !in s.pushes || s.pushes[id].key.branch !in s.tips || s.pushes[id].base !in s.trees then s
    else
      var t, tip := s.pushes[id], s.tips[s.pushes[id].key.branch];
      if !FitsAll(s.trees[t.base], t.enforced) then s
      else
        s.(trees := s.trees[commit := if tip == t.base then Apply(s.trees[t.base], t.enforced) else rebased],
           attempts := s.attempts[attempt := Attempt(id, tip, commit, false)])
  }

  /** --force-with-lease: the forge takes the commit only if the tip has not moved. */
  function LandPushStep(s: Sys, attempt: nat): Sys {
    if attempt !in s.attempts || s.attempts[attempt].task !in s.pushes then s
    else
      var a := s.attempts[attempt];
      var branch := s.pushes[a.task].key.branch;
      if a.landed || branch !in s.tips || s.tips[branch] != a.tipBefore then s
      else s.(tips := s.tips[branch := a.commit], attempts := s.attempts[attempt := a.(landed := true)])
  }

  /** The conditions on advancing the sync point after a push. */
  predicate MayAdvance(s: Sys, attempt: nat) {
    && attempt in s.attempts && s.attempts[attempt].landed && s.attempts[attempt].task in s.pushes
    && var a, t := s.attempts[attempt], s.pushes[s.attempts[attempt].task];
       && a.tipBefore == t.base && Dropped(t) == 0
       && t.key in s.stored && s.stored[t.key] == t.base
  }

  /** advanceSyncPoint: compare-and-set from the base, then mint; otherwise no token. */
  function FinishPushStep(s: Sys, attempt: nat, completes: bool): Sys {
    if attempt !in s.attempts || !s.attempts[attempt].landed || s.attempts[attempt].task !in s.pushes then s
    else
      var a := s.attempts[attempt];
      var t := s.pushes[a.task];
      var next := if MayAdvance(s, attempt) then Some(Token(t.key, a.commit)) else None;
      s.(stored := if next.Some? then s.stored[t.key := a.commit] else s.stored,
         minted := if next.Some? then s.minted + {next.value} else s.minted,
         pushes := if completes && t.result.None? then s.pushes[a.task := t.(result := Some(PushResult(a.commit, next)))] else s.pushes)
  }

  function CrashStep(s: Sys, key: Key): Sys {
    if key !in s.clients then s else s.(clients := s.clients[key := s.clients[key].(proc := Idle)])
  }

  /** RecordPush: only a result that carries a token moves the state file. */
  function SavePushStep(s: Sys, key: Key): Sys {
    if key !in s.clients then s
    else
      var c := s.clients[key];
      if !c.proc.PushWait? || c.proc.id !in s.pushes || s.pushes[c.proc.id].result.None? then s
      else
        var next := s.pushes[c.proc.id].result.value.next;
        if next.None? || c.head.None? then CrashStep(s, key)
        else s.(clients := s.clients[key := Recorded(c, next)])
  }

  /** The client once it recorded the push it waited for. */
  function Recorded(c: Client, next: Option<Token>): Client
    requires c.proc.PushWait? && c.head.Some?
  {
    c.(token := next, base := c.head, landed := c.landed[c.head.value := c.proc.id], proc := Idle)
  }

  function Step(w: World, s: Sys, e: Event): Sys {
    match e
    case NewWorkspace(key) => NewWorkspaceStep(s, key)
    case ForgeMoves(branch, commit, tree) => ForgeMovesStep(s, branch, commit, tree)
    case RequestPull(id, key, token, byClient) => RequestPullStep(s, id, key, token, byClient)
    case ResolveTip(id) => ResolveTipStep(s, id)
    case FinishPull(id, to, diff, completes) => FinishPullStep(s, id, to, diff, completes)
    case ApplyPull(key, sync) => ApplyPullStep(w, s, key, sync)
    case HeadMoves(key, local, tree) => HeadMovesStep(s, key, local, tree)
    case SavePull(key) => SavePullStep(s, key)
    case RequestPush(id, key, token, diff, strip, byClient) => RequestPushStep(w, s, id, key, token, diff, strip, byClient)
    case StartPush(id, attempt, commit, rebased) => StartPushStep(s, id, attempt, commit, rebased)
    case LandPush(attempt) => LandPushStep(s, attempt)
    case FinishPush(attempt, completes) => FinishPushStep(s, attempt, completes)
    case SavePush(key) => SavePushStep(s, key)
    case Crash(key) => CrashStep(s, key)
  }

  /** What the environment may do: ids are fresh, diffs are diffs, and a client's own
      request carries what its state file and checkout say. */
  ghost predicate Legal(s: Sys, e: Event) {
    match e
    case RequestPull(id, key, token, byClient) =>
      id !in s.pulls && (byClient ==> key in s.clients && s.clients[key].proc.Idle? && token == s.clients[key].token)
    case FinishPull(id, to, diff, _) =>
      id in s.pulls && to in s.trees ==>
        && IsDiff(TreeAt(s.trees, s.pulls[id].from), s.trees[to], diff)
        && (s.pulls[id].from == Some(to) ==> diff == [])
    case ApplyPull(key, sync) => key in s.clients ==> sync !in s.clients[key].git
    case HeadMoves(key, local, tree) =>
      key in s.clients && local in s.clients[key].git ==> tree == s.clients[key].git[local]
    case RequestPush(id, key, token, diff, _, byClient) =>
      id !in s.pushes && (byClient ==> key in s.clients && CanDiff(s.clients[key], diff) && token == s.clients[key].token)
    case StartPush(_, attempt, commit, _) => commit !in s.trees && attempt !in s.attempts
    case _ => true
  }

  ghost predicate CanDiff(c: Client, diff: seq<Section>) {
    && c.proc.Idle? && c.base.Some? && c.head.Some? && c.base.value in c.git && c.head.value in c.git
    && IsDiff(c.git[c.base.value], c.git[c.head.value], diff)
  }

  /** What an apply with no base recorded must find, if the delivered patch fits at all:
      no readable file at HEAD. */
  ghost predicate CleanStart(w: World, s: Sys, key: Key) {
    key in s.clients && s.clients[key].base.None? && Waits(s, key) ==>
      var start := StartTree(s.clients[key]);
      FitsAll(start, Delivered(w, s, key)) ==>
        forall p :: p in start ==> !w.readable(key)(p)
  }

  /** The client waits for a pull that has its result. */
  ghost predicate Waits(s: Sys, key: Key)
    requires key in s.clients
  {
    var proc := s.clients[key].proc;
    proc.PullWait? && proc.id in s.pulls && s.pulls[proc.id].result.Some?
  }

  function Delivered(w: World, s: Sys, key: Key): seq<Section>
    requires key in s.clients && Waits(s, key)
  {
    Deliver(s.pulls[s.clients[key].proc.id].result.value.diff, w.readable(key))
  }

  /** What agreement asks of a run: no delivered diff straddles the read boundary, and no
      first synchronization is merged into readable files already there. */
  ghost predicate Gentle(w: World, s: Sys, e: Event) {
    match e
    case FinishPull(id, _, diff, _) => id in s.pulls ==> !AnyStraddles(diff, w.readable(s.pulls[id].key))
    case ApplyPull(key, _) => CleanStart(w, s, key)
    case _ => true
  }

  ghost function Run(w: World, s: Sys, es: seq<Event>): Sys
    decreases |es|
  {
    if es == [] then s else Run(w, Step(w, s, es[0]), es[1..])
  }

  ghost predicate LegalRun(w: World, s: Sys, es: seq<Event>, gentle: bool)
    decreases |es|
  {
    es != [] ==>
      && Legal(s, es[0]) && (gentle ==> Gentle(w, s, es[0]))
      && LegalRun(w, Step(w, s, es[0]), es[1..], gentle)
  }

  // ---------------------------------------------------------------- invariant

  /** A client's tree against the upstream tree it stands for. */
  ghost predicate Follows(w: World, key: Key, held: Tree, upstream: Tree) {
    Agree(held, upstream, w.readable(key))
  }

  ghost predicate PullOk(w: World, s: Sys, t: PullTask, gentle: bool) {
    && (t.from.Some? ==> t.from.value in s.trees && Token(t.key, t.from.value) in s.minted)
    && t.resolved <= s.trees.Keys
    && (t.result.Some? ==>
          && t.result.value.to in s.trees && Token(t.key, t.result.value.to) in s.minted
          && IsDiff(TreeAt(s.trees, t.from), s.trees[t.result.value.to], t.result.value.diff)
          && (gentle ==> !AnyStraddles(t.result.value.diff, w.readable(t.key))))
  }

  ghost predicate PushOk(w: World, s: Sys, t: PushTask) {
    && t.base in s.trees && t.enforced == Kept(t.submitted, w.pushable(t.key))
    && (t.result.Some? && t.result.value.next.Some? ==>
          var c := t.result.value.commit;
          && t.result.value.next == Some(Token(t.key, c)) && Token(t.key, c) in s.minted
          && c in s.trees && s.trees[c] == Apply(s.trees[t.base], t.submitted))
  }

  ghost predicate AttemptOk(s: Sys, a: Attempt) {
    && a.task in s.pushes && a.commit in s.trees && s.pushes[a.task].base in s.trees
    && FitsAll(s.trees[s.pushes[a.task].base], s.pushes[a.task].enforced)
    && (a.tipBefore == s.pushes[a.task].base ==>
          s.trees[a.commit] == Apply(s.trees[s.pushes[a.task].base], s.pushes[a.task].enforced))
  }

  ghost predicate ServerOk(w: World, s: Sys, gentle: bool) {
    && (forall t :: t in s.minted ==> t.commit in s.trees)
    && (forall k :: k in s.stored ==> s.stored[k] in s.trees)
    && (forall b :: b in s.tips ==> s.tips[b] in s.trees)
    && (forall id :: id in s.pulls ==> PullOk(w, s, s.pulls[id], gentle))
    && (forall id :: id in s.pushes ==> PushOk(w, s, s.pushes[id]))
    && (forall a :: a in s.attempts ==> AttemptOk(s, s.attempts[a]))
  }

  /** The token and the base in the state file come from one delivered result: the
      base is the commit that pull was applied as, or the HEAD that push left. */
  ghost predicate SameDelivery(s: Sys, c: Client) {
    c.token.Some? && c.base.Some? && (FromPull(s, c) || FromPush(s, c))
  }

  ghost predicate FromPull(s: Sys, c: Client)
    requires c.token.Some? && c.base.Some?
  {
    && c.base.value in c.made && c.made[c.base.value] in s.pulls
    && var t := s.pulls[c.made[c.base.value]];
       t.result.Some? && c.token.value == Token(t.key, t.result.value.to)
  }

  ghost predicate FromPush(s: Sys, c: Client)
    requires c.token.Some? && c.base.Some?
  {
    && c.base.value in c.landed && c.landed[c.base.value] in s.pushes
    && var t := s.pushes[c.landed[c.base.value]];
       t.result.Some? && t.result.value.next == c.token
  }

  ghost predicate StateOk(w: World, s: Sys, key: Key, c: Client, gentle: bool) {
    && (c.token.Some? <==> c.base.Some?)
    && (c.base.Some? ==> c.base.value in c.git && c.head.Some?)
    && (c.head.Some? ==> c.head.value in c.git)
    && (c.token.Some? ==>
          && c.token.value.key == key && c.token.value in s.minted && SameDelivery(s, c)
          && c.token.value.commit in s.trees
          && (gentle ==> Follows(w, key, c.git[c.base.value], s.trees[c.token.value.commit])))
  }

  ghost predicate ProcOk(w: World, s: Sys, key: Key, c: Client, gentle: bool) {
    match c.proc
    case Idle => true
    case PullWait(id) => id in s.pulls && s.pulls[id].key == key && s.pulls[id].from == CommitOf(c.token)
    case Synced(id, sync) =>
      && id in s.pulls && s.pulls[id].key == key && s.pulls[id].result.Some?
      && sync in c.git && sync in c.made && c.made[sync] == id && c.head.Some?
      && s.pulls[id].result.value.to in s.trees
      && (gentle ==> Follows(w, key, c.git[sync], s.trees[s.pulls[id].result.value.to]))
    case PushWait(id) =>
      && id in s.pushes && s.pushes[id].key == key && c.token.Some? && s.pushes[id].base == c.token.value.commit
      && c.base.Some? && c.head.Some? && c.base.value in c.git && c.head.value in c.git
      && IsDiff(c.git[c.base.value], c.git[c.head.value], s.pushes[id].submitted)
  }

  ghost predicate ClientOk(w: World, s: Sys, key: Key, c: Client, gentle: bool) {
    StateOk(w, s, key, c, gentle) && ProcOk(w, s, key, c, gentle)
  }

  ghost predicate Inv(w: World, s: Sys, gentle: bool) {
    ServerOk(w, s, gentle) && forall key :: key in s.clients ==> ClientOk(w, s, key, s.clients[key], gentle)
  }

  // ---------------------------------------------------------------- what steps leave alone

  ghost predicate SamePull(t: PullTask, t': PullTask) {
    t'.key == t.key && t'.from == t.from && (t.result.Some? ==> t'.result == t.result)
  }

  ghost predicate SamePush(t: PushTask, t': PushTask) {
    t'.key == t.key && t'.base == t.base && t'.submitted == t.submitted && t'.enforced == t.enforced && (t.result.Some? ==> t'.result == t.result)
  }

  /** Commits, tokens, tasks and results are only ever added. */
  ghost predicate Grows(s: Sys, s': Sys) {
    && (forall c :: c in s.trees ==> c in s'.trees && s'.trees[c] == s.trees[c])
    && s.minted <= s'.minted
    && (forall id :: id in s.pulls ==> id in s'.pulls && SamePull(s.pulls[id], s'.pulls[id]))
    && (forall id :: id in s.pushes ==> id in s'.pushes && SamePush(s.pushes[id], s'.pushes[id]))
  }

  lemma ClientStays(w: World, s: Sys, s': Sys, key: Key, c: Client, gentle: bool)
    requires ClientOk(w, s, key, c, gentle) && Grows(s, s')
    ensures ClientOk(w, s', key, c, gentle)
  {
    if c.token.Some? {
      assert SameDelivery(s, c);
      assert SameDelivery(s', c);
    }
  }

  /** One client changes; the others are carried along. */
  lemma ClientsFollow(w: World, s: Sys, s': Sys, key: Key, gentle: bool)
    requires Inv(w, s, gentle) && Grows(s, s') && ServerOk(w, s', gentle)
    requires forall k :: k in s'.clients && k != key ==> k in s.clients && s'.clients[k] == s.clients[k]
    requires key in s'.clients ==> ClientOk(w, s', key, s'.clients[key], gentle)
    ensures Inv(w, s', gentle)
  {
    forall k | k in s'.clients ensures ClientOk(w, s', k, s'.clients[k], gentle) {
      if k != key {
        ClientStays(w, s, s', k, s.clients[k], gentle);
      }
    }
  }

  lemma NobodyMoves(w: World, s: Sys, s': Sys, gentle: bool)
    requires Inv(w, s, gentle) && Grows(s, s') && ServerOk(w, s', gentle) && s'.clients == s.clients
    ensures Inv(w, s', gentle)
  {
    forall k | k in s'.clients ensures ClientOk(w, s', k, s'.clients[k], gentle) {
      ClientStays(w, s, s', k, s.clients[k], gentle);
    }
  }

  lemma PullStays(w: World, s: Sys, s': Sys, t: PullTask, gentle: bool)
    requires PullOk(w, s, t, gentle) && Grows(s, s')
    ensures PullOk(w, s', t, gentle)
  {
  }

  lemma PushStays(w: World, s: Sys, s': Sys, t: PushTask)
    requires PushOk(w, s, t) && Grows(s, s')
    ensures PushOk(w, s', t)
  {
  }

  lemma AttemptStays(s: Sys, s': Sys, a: Attempt)
    requires AttemptOk(s, a) && Grows(s, s')
    ensures AttemptOk(s', a)
  {
  }

  /** The server's tables, when tasks and attempts are the old ones. */
  lemma ServerStays(w: World, s: Sys, s': Sys, gentle: bool)
    requires ServerOk(w, s, gentle) && Grows(s, s')
    requires s'.pulls == s.pulls && s'.pushes == s.pushes && s'.attempts == s.attempts
    requires forall t :: t in s'.minted ==> t.commit in s'.trees
    requires forall k :: k in s'.stored ==> s'.stored[k] in s'.trees
    requires forall b :: b in s'.tips ==> s'.tips[b] in s'.trees
    ensures ServerOk(w, s', gentle)
  {
    forall id | id in s'.pulls ensures PullOk(w, s', s'.pulls[id], gentle) { PullStays(w, s, s', s.pulls[id], gentle); }
    forall id | id in s'.pushes ensures PushOk(w, s', s'.pushes[id]) { PushStays(w, s, s', s.pushes[id]); }
    forall a | a in s'.attempts ensures AttemptOk(s', s'.attempts[a]) { AttemptStays(s, s', s.attempts[a]); }
  }

  /** The same with one pull task written. */
  lemma ServerWritesPull(w: World, s: Sys, s': Sys, id: TaskId, gentle: bool)
    requires ServerOk(w, s, gentle) && Grows(s, s')
    requires s'.pushes == s.pushes && s'.attempts == s.attempts
    requires forall x :: x in s'.pulls && x != id ==> x in s.pulls && s'.pulls[x] == s.pulls[x]
    requires id in s'.pulls ==> PullOk(w, s', s'.pulls[id], gentle)
    requires forall t :: t in s'.minted ==> t.commit in s'.trees
    requires forall k :: k in s'.stored ==> s'.stored[k] in s'.trees
    requires forall b :: b in s'.tips ==> s'.tips[b] in s'.trees
    ensures ServerOk(w, s', gentle)
  {
    forall x | x in s'.pulls ensures PullOk(w, s', s'.pulls[x], gentle) {
      if x != id { PullStays(w, s, s', s.pulls[x], gentle); }
    }
    forall x | x in s'.pushes ensures PushOk(w, s', s'.pushes[x]) { PushStays(w, s, s', s.pushes[x]); }
    forall a | a in s'.attempts ensures AttemptOk(s', s'.attempts[a]) { AttemptStays(s, s', s.attempts[a]); }
  }

  /** And with one push task, or one attempt, written. */
  lemma ServerWritesPush(w: World, s: Sys, s': Sys, id: TaskId, gentle: bool)
    requires ServerOk(w, s, gentle) && Grows(s, s')
    requires s'.pulls == s.pulls && s'.attempts == s.attempts
    requires forall x :: x in s'.pushes && x != id ==> x in s.pushes && s'.pushes[x] == s.pushes[x]
    requires id in s'.pushes ==> PushOk(w, s', s'.pushes[id])
    requires forall t :: t in s'.minted ==> t.commit in s'.trees
    requires forall k :: k in s'.stored ==> s'.stored[k] in s'.trees
    requires forall b :: b in s'.tips ==> s'.tips[b] in s'.trees
    ensures ServerOk(w, s', gentle)
  {
    forall x | x in s'.pulls ensures PullOk(w, s', s'.pulls[x], gentle) { PullStays(w, s, s', s.pulls[x], gentle); }
    forall x | x in s'.pushes ensures PushOk(w, s', s'.pushes[x]) {
      if x != id { PushStays(w, s, s', s.pushes[x]); }
    }
    forall a | a in s'.attempts ensures AttemptOk(s', s'.attempts[a]) { AttemptStays(s, s', s.attempts[a]); }
  }

  lemma ServerWritesAttempt(w: World, s: Sys, s': Sys, attempt: nat, gentle: bool)
    requires ServerOk(w, s, gentle) && Grows(s, s')
    requires s'.pulls == s.pulls && s'.pushes == s.pushes && s'.stored == s.stored && s'.minted == s.minted
    requires forall x :: x in s'.attempts && x != attempt ==> x in s.attempts && s'.attempts[x] == s.attempts[x]
    requires attempt in s'.attempts ==> AttemptOk(s', s'.attempts[attempt])
    requires forall b :: b in s'.tips ==> s'.tips[b] in s'.trees
    ensures ServerOk(w, s', gentle)
  {
    forall x | x in s'.pulls ensures PullOk(w, s', s'.pulls[x], gentle) { PullStays(w, s, s', s.pulls[x], gentle); }
    forall x | x in s'.pushes ensures PushOk(w, s', s'.pushes[x]) { PushStays(w, s, s', s.pushes[x]); }
    forall a | a in s'.attempts ensures AttemptOk(s', s'.attempts[a]) {
      if a != attempt { AttemptStays(s, s', s.attempts[a]); }
    }
  }

  /** Only one client's record changes. */
  lemma OneClient(w: World, s: Sys, key: Key, c: Client, gentle: bool)
    requires Inv(w, s, gentle) && ClientOk(w, s, key, c, gentle)
    ensures Inv(w, s.(clients := s.clients[key := c]), gentle)
  {
    var s' := s.(clients := s.clients[key := c]);
    ServerStays(w, s, s', gentle);
    ClientStays(w, s, s', key, c, gentle);
    ClientsFollow(w, s, s', key, gentle);
  }

  lemma StateStays(w: World, s: Sys, key: Key, c: Client, proc: Proc, gentle: bool)
    requires StateOk(w, s, key, c, gentle)
    ensures StateOk(w, s, key, c.(proc := proc), gentle)
  {
    if c.token.Some? {
      assert SameDelivery(s, c);
      assert SameDelivery(s, c.(proc := proc));
    }
  }

  // ---------------------------------------------------------------- every step keeps the invariant

  lemma ForgeMovesKeeps(w: World, s: Sys, branch: Branch, commit: Commit, tree: Tree, gentle: bool)
    requires Inv(w, s, gentle)
    ensures Inv(w, ForgeMovesStep(s, branch, commit, tree), gentle)
  {
    var s' := ForgeMovesStep(s, branch, commit, tree);
    ServerStays(w, s, s', gentle);
    NobodyMoves(w, s, s', gentle);
  }

  /** A pull task written, new or moved on. */
  lemma PullWritten(w: World, s: Sys, id: TaskId, t: PullTask, gentle: bool)
    requires Inv(w, s, gentle) && PullOk(w, s, t, gentle) && (id in s.pulls ==> SamePull(s.pulls[id], t))
    ensures Inv(w, s.(pulls := s.pulls[id := t]), gentle)
  {
    var s' := s.(pulls := s.pulls[id := t]);
    PullStays(w, s, s', t, gentle);
    ServerWritesPull(w, s, s', id, gentle);
    NobodyMoves(w, s, s', gentle);
  }

  lemma RequestPullKeeps(w: World, s: Sys, id: TaskId, key: Key, token: Option<Token>, byClient: bool, gentle: bool)
    requires Inv(w, s, gentle) && Legal(s, RequestPull(id, key, token, byClient))
    ensures Inv(w, RequestPullStep(s, id, key, token, byClient), gentle)
  {
    var base := ResolvePullBase(s.minted, token, key);
    if base.Success? {
      PullWritten(w, s, id, PullTask(key, base.value, {}, None), gentle);
      var s1 := s.(pulls := s.pulls[id := PullTask(key, base.value, {}, None)]);
      if byClient {
        var c := s.clients[key];
        assert ClientOk(w, s1, key, c, gentle);
        StateStays(w, s1, key, c, PullWait(id), gentle);
        OneClient(w, s1, key, c.(proc := PullWait(id)), gentle);
      }
    }
  }

  lemma ResolveTipKeeps(w: World, s: Sys, id: TaskId, gentle: bool)
    requires Inv(w, s, gentle)
    ensures Inv(w, ResolveTipStep(s, id), gentle)
  {
    if id in s.pulls && s.pulls[id].key.branch in s.tips {
      var t := s.pulls[id];
      assert PullOk(w, s, t, gentle);
      PullWritten(w, s, id, t.(resolved := t.resolved + {s.tips[t.key.branch]}), gentle);
    }
  }

  lemma FinishPullKeeps(w: World, s: Sys, id: TaskId, to: Commit, diff: seq<Section>, completes: bool, gentle: bool)
    requires Inv(w, s, gentle)
    requires Legal(s, FinishPull(id, to, diff, completes)) && (gentle ==> Gentle(w, s, FinishPull(id, to, diff, completes)))
    ensures Inv(w, FinishPullStep(s, id, to, diff, completes), gentle)
  {
    if id in s.pulls && to in s.pulls[id].resolved {
      var t := s.pulls[id];
      assert PullOk(w, s, t, gentle);
      var s1 := s.(stored := s.stored[t.key := to], minted := s.minted + {Token(t.key, to)});
      AdvanceKeeps(w, s, t.key, to, gentle);
      if completes && t.result.None? {
        PullWritten(w, s1, id, t.(result := Some(PullResult(to, diff))), gentle);
      }
    }
  }

  /** The heart of a pull: what was delivered, applied where ApplySync applies it,
      leaves a commit that agrees with the tip. */
  lemma ApplySyncAgrees(w: World, s: Sys, key: Key)
    requires Inv(w, s, true) && key in s.clients && Waits(s, key) && CleanStart(w, s, key)
    requires s.clients[key].base.Some? || FitsAll(StartTree(s.clients[key]), Delivered(w, s, key))
    ensures var c, t := s.clients[key], s.pulls[s.clients[key].proc.id];
      && FitsAll(StartTree(c), Delivered(w, s, key))
      && t.result.value.to in s.trees
      && Follows(w, key, Apply(StartTree(c), Delivered(w, s, key)), s.trees[t.result.value.to])
  {
    var c := s.clients[key];
    assert ClientOk(w, s, key, c, true);
    var t := s.pulls[c.proc.id];
    assert PullOk(w, s, t, true);
    var r := t.result.value;
    if c.token.Some? {
      assert c.base.value in c.git;
      assert StartTree(c) == c.git[c.base.value];
    }
    assert Follows(w, key, StartTree(c), TreeAt(s.trees, t.from));
    DeliveryFollows(StartTree(c), TreeAt(s.trees, t.from), s.trees[r.to], r.diff, w.readable(key));
  }

  /** A checkout that gained a commit still says what it said. */
  lemma GrownCheckout(w: World, s: Sys, key: Key, c: Client, c': Client, gentle: bool)
    requires StateOk(w, s, key, c, gentle)
    requires c'.token == c.token && c'.base == c.base && c'.landed == c.landed
    requires forall x :: x in c.git ==> x in c'.git && c'.git[x] == c.git[x]
    requires forall x :: x in c.made && x in c.git ==> x in c'.made && c'.made[x] == c.made[x]
    requires c'.head.Some? && c'.head.value in c'.git
    ensures StateOk(w, s, key, c', gentle)
  {
    if c.token.Some? {
      assert SameDelivery(s, c);
      assert SameDelivery(s, c');
    }
  }

  lemma ApplyPullKeeps(w: World, s: Sys, key: Key, sync: Local, gentle: bool)
    requires Inv(w, s, gentle)
    requires Legal(s, ApplyPull(key, sync)) && (gentle ==> Gentle(w, s, ApplyPull(key, sync)))
    ensures Inv(w, ApplyPullStep(w, s, key, sync), gentle)
  {
    var s' := ApplyPullStep(w, s, key, sync);
    if s' != s {
      var c := s.clients[key];
      assert ClientOk(w, s, key, c, gentle);
      assert PullOk(w, s, s.pulls[c.proc.id], gentle);
      if gentle && FitsAll(StartTree(c), Delivered(w, s, key)) { ApplySyncAgrees(w, s, key); }
      AppliedIsOk(w, s, key, c, sync, gentle);
      OneClient(w, s, key, s'.clients[key], gentle);
    }
  }

  lemma AppliedIsOk(w: World, s: Sys, key: Key, c: Client, sync: Local, gentle: bool)
    requires ClientOk(w, s, key, c, gentle) && c.proc.PullWait? && sync !in c.git
    requires s.pulls[c.proc.id].result.Some? && s.pulls[c.proc.id].result.value.to in s.trees
    requires var patch := Deliver(s.pulls[c.proc.id].result.value.diff, w.readable(key));
      gentle && FitsAll(StartTree(c), patch) ==> Follows(w, key, Apply(StartTree(c), patch), s.trees[s.pulls[c.proc.id].result.value.to])
    ensures var patch := Deliver(s.pulls[c.proc.id].result.value.diff, w.readable(key));
      ClientOk(w, s, key, ApplySync(c, patch, c.proc.id, sync), gentle)
  {
    var patch := Deliver(s.pulls[c.proc.id].result.value.diff, w.readable(key));
    var c' := ApplySync(c, patch, c.proc.id, sync);
    if FitsAll(StartTree(c), patch) {
      GrownCheckout(w, s, key, c, c', gentle);
    } else {
      StateStays(w, s, key, c, Idle, gentle);
    }
  }

  lemma HeadMovesKeeps(w: World, s: Sys, key: Key, local: Local, tree: Tree, gentle: bool)
    requires Inv(w, s, gentle) && Legal(s, HeadMoves(key, local, tree))
    ensures Inv(w, HeadMovesStep(s, key, local, tree), gentle)
  {
    if key in s.clients && !s.clients[key].proc.PushWait? {
      var c := s.clients[key];
      var c' := c.(git := c.git[local := tree], head := Some(local));
      assert ClientOk(w, s, key, c, gentle);
      GrownCheckout(w, s, key, c, c', gentle);
      assert ProcOk(w, s, key, c', gentle);
      OneClient(w, s, key, c', gentle);
    }
  }

  lemma SavedPullIsOk(w: World, s: Sys, key: Key, c: Client, gentle: bool)
    requires ClientOk(w, s, key, c, gentle) && c.proc.Synced?
    requires Token(key, s.pulls[c.proc.id].result.value.to) in s.minted
    ensures ClientOk(w, s, key, c.(token := Some(Token(key, s.pulls[c.proc.id].result.value.to)), base := Some(c.proc.sync), proc := Idle), gentle)
  {
    var c' := c.(token := Some(Token(key, s.pulls[c.proc.id].result.value.to)), base := Some(c.proc.sync), proc := Idle);
    assert FromPull(s, c');
    assert SameDelivery(s, c');
  }

  lemma SavePullKeeps(w: World, s: Sys, key: Key, gentle: bool)
    requires Inv(w, s, gentle)
    ensures Inv(w, SavePullStep(s, key), gentle)
  {
    var s' := SavePullStep(s, key);
    if s' != s {
      var c := s.clients[key];
      assert ClientOk(w, s, key, c, gentle);
      assert PullOk(w, s, s.pulls[c.proc.id], gentle);
      SavedPullIsOk(w, s, key, c, gentle);
      OneClient(w, s, key, s'.clients[key], gentle);
    }
  }

  lemma PushTaskKeeps(w: World, s: Sys, id: TaskId, t: PushTask, gentle: bool)
    requires Inv(w, s, gentle) && id !in s.pushes && PushOk(w, s, t)
    ensures Inv(w, s.(pushes := s.pushes[id := t]), gentle)
  {
    var s' := s.(pushes := s.pushes[id := t]);
    PushStays(w, s, s', t);
    ServerWritesPush(w, s, s', id, gentle);
    NobodyMoves(w, s, s', gentle);
  }

  lemma RequestPushKeeps(w: World, s: Sys, id: TaskId, key: Key, token: Option<Token>, diff: seq<Section>, strip: bool, byClient: bool, gentle: bool)
    requires Inv(w, s, gentle) && Legal(s, RequestPush(id, key, token, diff, strip, byClient))
    ensures Inv(w, RequestPushStep(w, s, id, key, token, diff, strip, byClient), gentle)
  {
    var s' := RequestPushStep(w, s, id, key, token, diff, strip, byClient);
    if s' != s {
      var t := PushTask(key, s.stored[key], diff, Kept(diff, w.pushable(key)), None);
      var s1 := s.(pushes := s.pushes[id := t]);
      PushTaskKeeps(w, s, id, t, gentle);
      if byClient {
        var c := s.clients[key];
        assert ClientOk(w, s1, key, c, gentle);
        StateStays(w, s1, key, c, PushWait(id), gentle);
        OneClient(w, s1, key, c.(proc := PushWait(id)), gentle);
      }
    }
  }

  lemma CommitKeeps(w: World, s: Sys, commit: Commit, tree: Tree, gentle: bool)
    requires Inv(w, s, gentle) && commit !in s.trees
    ensures Inv(w, s.(trees := s.trees[commit := tree]), gentle)
  {
    var s' := s.(trees := s.trees[commit := tree]);
    ServerStays(w, s, s', gentle);
    NobodyMoves(w, s, s', gentle);
  }

  lemma AttemptKeeps(w: World, s: Sys, attempt: nat, a: Attempt, gentle: bool)
    requires Inv(w, s, gentle) && AttemptOk(s, a)
    ensures Inv(w, s.(attempts := s.attempts[attempt := a]), gentle)
  {
    var s' := s.(attempts := s.attempts[attempt := a]);
    AttemptStays(s, s', a);
    ServerWritesAttempt(w, s, s', attempt, gentle);
    NobodyMoves(w, s, s', gentle);
  }

  lemma StartPushKeeps(w: World, s: Sys, id: TaskId, attempt: nat, commit: Commit, rebased: Tree, gentle: bool)
    requires Inv(w, s, gentle) && Legal(s, StartPush(id, attempt, commit, rebased))
    ensures Inv(w, StartPushStep(s, id, attempt, commit, rebased), gentle)
  {
    if id in s.pushes && s.pushes[id].key.branch in s.tips && s.pushes[id].base in s.trees {
      var t, tip := s.pushes[id], s.tips[s.pushes[id].key.branch];
      if FitsAll(s.trees[t.base], t.enforced) {
        var tree := if tip == t.base then Apply(s.trees[t.base], t.enforced) else rebased;
        CommitKeeps(w, s, commit, tree, gentle);
        AttemptKeeps(w, s.(trees := s.trees[commit := tree]), attempt, Attempt(id, tip, commit, false), gentle);
      }
    }
  }

  lemma LandPushKeeps(w: World, s: Sys, attempt: nat, gentle: bool)
    requires Inv(w, s, gentle)
    ensures Inv(w, LandPushStep(s, attempt), gentle)
  {
    if LandPushStep(s, attempt) != s {
      var a := s.attempts[attempt];
      assert AttemptOk(s, a);
      var branch := s.pushes[a.task].key.branch;
      AttemptKeeps(w, s, attempt, a.(landed := true), gentle);
      TipKeeps(w, s.(attempts := s.attempts[attempt := a.(landed := true)]), branch, a.commit, gentle);
    }
  }

  lemma TipKeeps(w: World, s: Sys, branch: Branch, commit: Commit, gentle: bool)
    requires Inv(w, s, gentle) && commit in s.trees
    ensures Inv(w, s.(tips := s.tips[branch := commit]), gentle)
  {
    var s' := s.(tips := s.tips[branch := commit]);
    ServerStays(w, s, s', gentle);
    NobodyMoves(w, s, s', gentle);
  }

  lemma AdvanceKeeps(w: World, s: Sys, key: Key, commit: Commit, gentle: bool)
    requires Inv(w, s, gentle) && commit in s.trees
    ensures Inv(w, s.(stored := s.stored[key := commit], minted := s.minted + {Token(key, commit)}), gentle)
  {
    var s' := s.(stored := s.stored[key := commit], minted := s.minted + {Token(key, commit)});
    ServerStays(w, s, s', gentle);
    NobodyMoves(w, s, s', gentle);
  }

  /** A task's first result, with a token only for what landed as submitted. */
  lemma RecordKeeps(w: World, s: Sys, id: TaskId, commit: Commit, next: Option<Token>, gentle: bool)
    requires Inv(w, s, gentle) && id in s.pushes && s.pushes[id].result.None? && s.pushes[id].base in s.trees
    requires var t := s.pushes[id];
      next.Some? ==>
        && next.value == Token(t.key, commit) && next.value in s.minted && commit in s.trees
        && s.trees[commit] == Apply(s.trees[t.base], t.submitted)
    ensures Inv(w, s.(pushes := s.pushes[id := s.pushes[id].(result := Some(PushResult(commit, next)))]), gentle)
  {
    var t := s.pushes[id].(result := Some(PushResult(commit, next)));
    var s' := s.(pushes := s.pushes[id := t]);
    assert PushOk(w, s, s.pushes[id]);
    assert PushOk(w, s', t);
    ServerWritesPush(w, s, s', id, gentle);
    NobodyMoves(w, s, s', gentle);
  }

  lemma LandedAsSubmitted(w: World, s: Sys, attempt: nat, gentle: bool)
    requires Inv(w, s, gentle) && MayAdvance(s, attempt)
    ensures var a := s.attempts[attempt];
      var t := s.pushes[a.task];
      t.base in s.trees && a.commit in s.trees && s.trees[a.commit] == Apply(s.trees[t.base], t.submitted)
  {
    var a := s.attempts[attempt];
    var t := s.pushes[a.task];
    assert AttemptOk(s, a) && PushOk(w, s, t);
    KeptAll(t.submitted, w.pushable(t.key));
  }

  lemma FinishPushKeeps(w: World, s: Sys, attempt: nat, completes: bool, gentle: bool)
    requires Inv(w, s, gentle)
    ensures Inv(w, FinishPushStep(s, attempt, completes), gentle)
  {
    if attempt in s.attempts && s.attempts[attempt].landed && s.attempts[attempt].task in s.pushes {
      var a := s.attempts[attempt];
      var t := s.pushes[a.task];
      assert PushOk(w, s, t);
      var s1, next := s, None;
      if MayAdvance(s, attempt) {
        LandedAsSubmitted(w, s, attempt, gentle);
        AdvanceKeeps(w, s, t.key, a.commit, gentle);
        next := Some(Token(t.key, a.commit));
        s1 := s.(stored := s.stored[t.key := a.commit], minted := s.minted + {Token(t.key, a.commit)});
      }
      if completes && t.result.None? {
        RecordKeeps(w, s1, a.task, a.commit, next, gentle);
      }
    }
  }

  /** The heart of a push: HEAD agrees with the commit that landed. */
  lemma SavedPushIsOk(w: World, s: Sys, key: Key, c: Client, gentle: bool)
    requires ClientOk(w, s, key, c, gentle) && c.proc.PushWait? && PushOk(w, s, s.pushes[c.proc.id])
    requires var t := s.pushes[c.proc.id]; t.result.Some? && t.result.value.next.Some?
    requires s.pushes[c.proc.id].base in s.trees
    ensures ClientOk(w, s, key, Recorded(c, s.pushes[c.proc.id].result.value.next), gentle)
  {
    var t := s.pushes[c.proc.id];
    var c' := Recorded(c, t.result.value.next);
    assert FromPush(s, c');
    assert SameDelivery(s, c');
    if gentle {
      PushFollows(c.git[c.base.value], c.git[c.head.value], s.trees[t.base], t.submitted, w.readable(key));
    }
  }

  lemma SavePushKeeps(w: World, s: Sys, key: Key, gentle: bool)
    requires Inv(w, s, gentle)
    ensures Inv(w, SavePushStep(s, key), gentle)
  {
    if key in s.clients && s.clients[key].proc.PushWait? {
      var id := s.clients[key].proc.id;
      if id in s.pushes && s.pushes[id].result.Some? && s.pushes[id].result.value.next.Some? {
        RecordPushKeeps(w, s, key, gentle);
      } else {
        CrashKeeps(w, s, key, gentle);
      }
    }
  }

  lemma RecordPushKeeps(w: World, s: Sys, key: Key, gentle: bool)
    requires Inv(w, s, gentle) && key in s.clients && s.clients[key].proc.PushWait?
    requires var id := s.clients[key].proc.id;
      id in s.pushes && s.pushes[id].result.Some? && s.pushes[id].result.value.next.Some?
    ensures var c := s.clients[key];
      && c.head.Some?
      && Inv(w, s.(clients := s.clients[key := Recorded(c, s.pushes[c.proc.id].result.value.next)]), gentle)
  {
    var c := s.clients[key];
    assert ClientOk(w, s, key, c, gentle);
    assert PushOk(w, s, s.pushes[c.proc.id]);
    SavedPushIsOk(w, s, key, c, gentle);
    OneClient(w, s, key, Recorded(c, s.pushes[c.proc.id].result.value.next), gentle);
  }

  lemma CrashKeeps(w: World, s: Sys, key: Key, gentle: bool)
    requires Inv(w, s, gentle)
    ensures Inv(w, CrashStep(s, key), gentle)
  {
    if key in s.clients {
      var c := s.clients[key];
      assert ClientOk(w, s, key, c, gentle);
      StateStays(w, s, key, c, Idle, gentle);
      OneClient(w, s, key, c.(proc := Idle), gentle);
    }
  }

  lemma NewWorkspaceKeeps(w: World, s: Sys, key: Key, gentle: bool)
    requires Inv(w, s, gentle)
    ensures Inv(w, NewWorkspaceStep(s, key), gentle)
  {
    if key !in s.clients {
      OneClient(w, s, key, NEW_CLIENT, gentle);
    }
  }

  lemma StepKeeps(w: World, s: Sys, e: Event, gentle: bool)
    requires Inv(w, s, gentle) && Legal(s, e) && (gentle ==> Gentle(w, s, e))
    ensures Inv(w, Step(w, s, e), gentle)
  {
    match e
    case NewWorkspace(key) => NewWorkspaceKeeps(w, s, key, gentle);
    case ForgeMoves(branch, commit, tree) => ForgeMovesKeeps(w, s, branch, commit, tree, gentle);
    case RequestPull(id, key, token, byClient) => RequestPullKeeps(w, s, id, key, token, byClient, gentle);
    case ResolveTip(id) => ResolveTipKeeps(w, s, id, gentle);
    case FinishPull(id, to, diff, completes) => FinishPullKeeps(w, s, id, to, diff, completes, gentle);
    case ApplyPull(key, sync) => ApplyPullKeeps(w, s, key, sync, gentle);
    case HeadMoves(key, local, tree) => HeadMovesKeeps(w, s, key, local, tree, gentle);
    case SavePull(key) => SavePullKeeps(w, s, key, gentle);
    case RequestPush(id, key, token, diff, strip, byClient) => RequestPushKeeps(w, s, id, key, token, diff, strip, byClient, gentle);
    case StartPush(id, attempt, commit, rebased) => StartPushKeeps(w, s, id, attempt, commit, rebased, gentle);
    case LandPush(attempt) => LandPushKeeps(w, s, attempt, gentle);
    case FinishPush(attempt, completes) => FinishPushKeeps(w, s, attempt, completes, gentle);
    case SavePush(key) => SavePushKeeps(w, s, key, gentle);
    case Crash(key) => CrashKeeps(w, s, key, gentle);
  }

  lemma {:induction false} RunKeeps(w: World, s: Sys, es: seq<Event>, gentle: bool)
    requires Inv(w, s, gentle) && LegalRun(w, s, es, gentle)
    ensures Inv(w, Run(w, s, es), gentle)
    decreases |es|
  {
    if es != [] {
      StepKeeps(w, s, es[0], gentle);
      RunKeeps(w, Step(w, s, es[0]), es[1..], gentle);
    }
  }
}
