/** Applying a policy to a patch: push is all or nothing, pull filters. */
module Enforce {
  import opened Core
  import opened Collections
  import opened Policy
  import opened Patch

  datatype GuardKind = NoGuard | SymlinkGuard | SubmoduleGuard | ProtectedPathGuard

  datatype Guards = Guards(protectedPaths: seq<Pattern>, symlinksRequireAdmin: bool, submodulesRequireAdmin: bool)

  datatype Mode = Reject | Strip

  datatype Options = Options(glob: Glob, bundle: Bundle, repo: string, ref: string, subject: Subject, guards: Guards)

  datatype Requirement = Requirement(path: string, action: Action, guard: GuardKind)

  datatype Check = Check(path: string, action: Action, guard: GuardKind, decision: Decision)

  datatype Verdict = Verdict(change: Change, checks: seq<Check>, allowed: bool)

  datatype Outcome = Outcome(
    mode: Mode, verdicts: seq<Verdict>, kept: seq<Change>, dropped: seq<Change>, patch: Bytes, rejected: bool,
    version: string)

  // ---------------------------------------------------------------- requirements

  function RequirementsFor(m: Meta): seq<Requirement> {
    match m.op
    case OpAdd => [Requirement(m.newPath, Create, NoGuard)]
    case OpModify => [Requirement(m.newPath, Read, NoGuard), Requirement(m.newPath, Write, NoGuard)]
    case OpDelete => [Requirement(m.oldPath, Read, NoGuard), Requirement(m.oldPath, Delete, NoGuard)]
    case OpRename =>
      [Requirement(m.oldPath, Read, NoGuard), Requirement(m.oldPath, Delete, NoGuard), Requirement(m.newPath, Create, NoGuard)]
    case OpCopy => [Requirement(m.oldPath, Read, NoGuard), Requirement(m.newPath, Create, NoGuard)]
  }

  /** The change results in an entry of this kind where there was not one already. */
  predicate IntroducesKind(m: Meta, kind: EntryKind) {
    && KindOfMode(m.newMode) == kind
    && (m.op == OpRename || m.op == OpCopy || KindOfMode(m.oldMode) != kind)
  }

  predicate IsProtected(g: Glob, guards: Guards, path: string) {
    exists p :: p in guards.protectedPaths && Match(g, p, path)
  }

  function ProtectedRequirements(g: Glob, guards: Guards, paths: seq<string>): seq<Requirement> {
    if paths == [] then []
    else (if IsProtected(g, guards, paths[0]) then [Requirement(paths[0], Admin, ProtectedPathGuard)] else [])
         + ProtectedRequirements(g, guards, paths[1..])
  }

  function GuardRequirements(g: Glob, guards: Guards, m: Meta): seq<Requirement> {
    (if guards.symlinksRequireAdmin && IntroducesKind(m, Symlink)
     then [Requirement(DisplayPath(m), Admin, SymlinkGuard)] else []) +
    (if guards.submodulesRequireAdmin && IntroducesKind(m, Submodule)
     then [Requirement(DisplayPath(m), Admin, SubmoduleGuard)] else []) +
    ProtectedRequirements(g, guards, Paths(m))
  }

  function PushRequirements(o: Options, m: Meta): seq<Requirement> {
    RequirementsFor(m) + GuardRequirements(o.glob, o.guards, m)
  }

  function PullRequirementsOf(paths: seq<string>): (r: seq<Requirement>)
    ensures forall q :: q in r <==> q.action == Read && q.guard == NoGuard && q.path in paths
  {
    if paths == [] then [] else [Requirement(paths[0], Read, NoGuard)] + PullRequirementsOf(paths[1..])
  }

  function PullRequirements(m: Meta): seq<Requirement> {
    PullRequirementsOf(Paths(m))
  }

  function RequestFor(o: Options, path: string, action: Action): Request {
    Request(o.repo, o.ref, o.subject, path, action)
  }

  function DecisionFor(o: Options, path: string, action: Action): Decision {
    Decide(o.glob, o.bundle, RequestFor(o, path, action))
  }

  predicate Allowed(o: Options, path: string, action: Action) {
    DecisionFor(o, path, action).allowed
  }

  predicate AllAllowed(o: Options, reqs: seq<Requirement>) {
    forall q :: q in reqs ==> Allowed(o, q.path, q.action)
  }

  /** The author may make this change: every path requirement and every guard holds. */
  predicate MayPush(o: Options, m: Meta) {
    AllAllowed(o, PushRequirements(o, m))
  }

  /** The reader may see this change: every path it touches is readable. */
  predicate MayRead(o: Options, m: Meta) {
    forall p :: p in Paths(m) ==> Allowed(o, p, Read)
  }

  lemma MayReadIsRequirements(o: Options, m: Meta)
    ensures AllAllowed(o, PullRequirements(m)) <==> MayRead(o, m)
  {
    forall p | p in Paths(m) ensures Requirement(p, Read, NoGuard) in PullRequirements(m) {
    }
  }

  lemma {:induction false} ProtectedAre(g: Glob, guards: Guards, paths: seq<string>, q: Requirement)
    ensures q in ProtectedRequirements(g, guards, paths) <==>
      q.path in paths && IsProtected(g, guards, q.path) && q.action == Admin && q.guard == ProtectedPathGuard
  {
    if paths != [] {
      ProtectedAre(g, guards, paths[1..], q);
      assert paths == [paths[0]] + paths[1..];
    }
  }

  /** What a push needs, path by path: the right to make what it makes, to read and
      delete what it removes, to read what it copies, to read and write what it modifies,
      and to administer what a guard protects. Making a file needs no right to read it. */
  lemma MayPushMeans(o: Options, m: Meta)
    ensures MayPush(o, m) <==>
      && (Makes(m) ==> Allowed(o, m.newPath, Create))
      && (Removes(m) ==> Allowed(o, m.oldPath, Delete))
      && (Removes(m) || m.op.OpCopy? ==> Allowed(o, m.oldPath, Read))
      && (m.op.OpModify? ==> Allowed(o, m.newPath, Read) && Allowed(o, m.newPath, Write))
      && (forall p :: p in Paths(m) && IsProtected(o.glob, o.guards, p) ==> Allowed(o, p, Admin))
      && (o.guards.symlinksRequireAdmin && IntroducesKind(m, Symlink) ==> Allowed(o, DisplayPath(m), Admin))
      && (o.guards.submodulesRequireAdmin && IntroducesKind(m, Submodule) ==> Allowed(o, DisplayPath(m), Admin))
  {
    AllowedConcat(o, RequirementsFor(m), GuardRequirements(o.glob, o.guards, m));
    RequirementsMean(o, m);
    GuardsMean(o, m);
  }

  /** The section leaves an entry of this mode where there was none: it moves or copies
      one, or the entry was of another mode before. */
  predicate Leaves(m: Meta, mode: nat) {
    m.newMode == mode && (m.op.OpRename? || m.op.OpCopy? || m.oldMode != mode)
  }

  /** What the guards ask, by git's mode numbers: admin on every protected path a section
      touches, and on the path where it leaves a symlink (0o120000) or a submodule
      (0o160000) that was not one already; and nothing else. */
  lemma GuardsByMode(o: Options, m: Meta)
    ensures MayPush(o, m) <==>
      && AllAllowed(o, RequirementsFor(m))
      && (forall pat :: pat in o.guards.protectedPaths && m.oldPath != "" && Match(o.glob, pat, m.oldPath) ==> Allowed(o, m.oldPath, Admin))
      && (forall pat :: pat in o.guards.protectedPaths && m.newPath != "" && Match(o.glob, pat, m.newPath) ==> Allowed(o, m.newPath, Admin))
      && (o.guards.symlinksRequireAdmin && Leaves(m, 0xA000) ==>
            Allowed(o, if m.newPath != "" then m.newPath else m.oldPath, Admin))
      && (o.guards.submodulesRequireAdmin && Leaves(m, 0xE000) ==>
            Allowed(o, if m.newPath != "" then m.newPath else m.oldPath, Admin))
  {
    AllowedConcat(o, RequirementsFor(m), GuardRequirements(o.glob, o.guards, m));
    GuardsMean(o, m);
    ProtectedMeans(o, m);
  }

  lemma ProtectedMeans(o: Options, m: Meta)
    ensures (forall p :: p in Paths(m) && IsProtected(o.glob, o.guards, p) ==> Allowed(o, p, Admin)) <==>
      && (forall pat :: pat in o.guards.protectedPaths && m.oldPath != "" && Match(o.glob, pat, m.oldPath) ==> Allowed(o, m.oldPath, Admin))
      && (forall pat :: pat in o.guards.protectedPaths && m.newPath != "" && Match(o.glob, pat, m.newPath) ==> Allowed(o, m.newPath, Admin))
  {
    assert m.oldPath != "" ==> m.oldPath in Paths(m);
    assert m.newPath != "" ==> m.newPath in Paths(m);
    assert forall p :: p in Paths(m) ==> p != "" && (p == m.oldPath || p == m.newPath);
  }

  /** A section is for a reader's eyes exactly when both its paths are, where it has them. */
  lemma MayReadMeans(o: Options, m: Meta)
    ensures MayRead(o, m) <==>
      && (m.oldPath != "" ==> Allowed(o, m.oldPath, Read)) && (m.newPath != "" ==> Allowed(o, m.newPath, Read))
  {
    assert m.oldPath != "" ==> m.oldPath in Paths(m);
    assert m.newPath != "" ==> m.newPath in Paths(m);
    assert forall p :: p in Paths(m) ==> p != "" && (p == m.oldPath || p == m.newPath);
  }

  /** One rule, which lets everyone create the file s and nothing else. */
  const CREATE_ONLY := Options(
    (glob, path) => glob == path,
    Bundle("v", map["u" := false], {"r"},
           map["r" := [Rule("c", AnyOne, [], [Pattern("s")], [], [Create], Allow, "")]], map[]),
    "r", "", Subject("u", []), Guards([], false, false))

  lemma CreateOnlyDecides()
    ensures Allowed(CREATE_ONLY, "s", Create) && !Allowed(CREATE_ONLY, "s", Read)
  {
    var o := CREATE_ONLY;
    var rules := RulesOf(o.bundle, "r");
    assert rules == [rules[0]] && rules[0].actions == [Create];
    var create, read := RequestFor(o, "s", Create), RequestFor(o, "s", Read);
    assert Pattern("s") in rules[0].paths && Match(o.glob, Pattern("s"), "s");
    assert Applies(o.glob, rules[0], create) && rules[0] in rules;
    DecideIsDeclarative(o.glob, o.bundle, create);
    DecideIsDeclarative(o.glob, o.bundle, read);
  }

  /** A push may write a file its author may not read. */
  lemma CreatedUnread()
    ensures var m := Meta(OpAdd, "", "s", 0, 0x81A4);
      ValidOptions(CREATE_ONLY) && MayPush(CREATE_ONLY, m) && !MayRead(CREATE_ONLY, m)
  {
    var m := Meta(OpAdd, "", "s", 0, 0x81A4);
    CreateOnlyDecides();
    MayPushMeans(CREATE_ONLY, m);
    assert Paths(m) == ["s"];
    assert "s" in Paths(m);
  }

  lemma AllowedConcat(o: Options, a: seq<Requirement>, b: seq<Requirement>)
    ensures AllAllowed(o, a + b) <==> AllAllowed(o, a) && AllAllowed(o, b)
  {
    assert forall q :: q in a || q in b ==> q in a + b;
  }

  lemma RequirementsMean(o: Options, m: Meta)
    ensures AllAllowed(o, RequirementsFor(m)) <==>
      && (Makes(m) ==> Allowed(o, m.newPath, Create))
      && (Removes(m) ==> Allowed(o, m.oldPath, Delete))
      && (Removes(m) || m.op.OpCopy? ==> Allowed(o, m.oldPath, Read))
      && (m.op.OpModify? ==> Allowed(o, m.newPath, Read) && Allowed(o, m.newPath, Write))
  {
    var reqs := RequirementsFor(m);
    assert AllAllowed(o, reqs) <==> forall i :: 0 <= i < |reqs| ==> Allowed(o, reqs[i].path, reqs[i].action);
  }

  lemma GuardsMean(o: Options, m: Meta)
    ensures AllAllowed(o, GuardRequirements(o.glob, o.guards, m)) <==>
      && (forall p :: p in Paths(m) && IsProtected(o.glob, o.guards, p) ==> Allowed(o, p, Admin))
      && (o.guards.symlinksRequireAdmin && IntroducesKind(m, Symlink) ==> Allowed(o, DisplayPath(m), Admin))
      && (o.guards.submodulesRequireAdmin && IntroducesKind(m, Submodule) ==> Allowed(o, DisplayPath(m), Admin))
  {
    var links := if o.guards.symlinksRequireAdmin && IntroducesKind(m, Symlink)
      then [Requirement(DisplayPath(m), Admin, SymlinkGuard)] else [];
    var modules := if o.guards.submodulesRequireAdmin && IntroducesKind(m, Submodule)
      then [Requirement(DisplayPath(m), Admin, SubmoduleGuard)] else [];
    var shielded := ProtectedRequirements(o.glob, o.guards, Paths(m));
    AllowedConcat(o, links + modules, shielded);
    AllowedConcat(o, links, modules);
    forall q ensures q in shielded <==>
      q.path in Paths(m) && IsProtected(o.glob, o.guards, q.path) && q.action == Admin && q.guard == ProtectedPathGuard
    {
      ProtectedAre(o.glob, o.guards, Paths(m), q);
    }
    assert AllAllowed(o, shielded) <==> forall p :: p in Paths(m) && IsProtected(o.glob, o.guards, p) ==> Allowed(o, p, Admin) by {
      assert forall p :: p in Paths(m) && IsProtected(o.glob, o.guards, p) ==> Requirement(p, Admin, ProtectedPathGuard) in shielded;
    }
  }

  // ---------------------------------------------------------------- specification

  function ChecksOf(o: Options, reqs: seq<Requirement>): seq<Check> {
    if reqs == [] then []
    else
      var n := |reqs| - 1;
      ChecksOf(o, reqs[..n]) + [Check(reqs[n].path, reqs[n].action, reqs[n].guard, DecisionFor(o, reqs[n].path, reqs[n].action))]
  }

  /** One check for each requirement, in order, each with the engine's own decision: a
      denial early in a section hides none after it. */
  lemma {:induction false} ChecksAre(o: Options, reqs: seq<Requirement>)
    ensures |ChecksOf(o, reqs)| == |reqs|
    ensures forall i :: 0 <= i < |reqs| ==>
      var c, q := ChecksOf(o, reqs)[i], reqs[i];
      && c.path == q.path && c.action == q.action && c.guard == q.guard
      && c.decision == Decide(o.glob, o.bundle, Request(o.repo, o.ref, o.subject, q.path, q.action))
  {
    if reqs != [] {
      ChecksAre(o, reqs[..|reqs| - 1]);
    }
  }

  function RequirementsIn(o: Options, push: bool, m: Meta): seq<Requirement> {
    if push then PushRequirements(o, m) else PullRequirements(m)
  }

  predicate Passes(o: Options, push: bool, m: Meta) {
    AllAllowed(o, RequirementsIn(o, push, m))
  }

  function VerdictOf(o: Options, push: bool, c: Change): Verdict {
    Verdict(c, ChecksOf(o, RequirementsIn(o, push, c.meta)), Passes(o, push, c.meta))
  }

  function VerdictsOf(o: Options, push: bool, changes: seq<Change>): seq<Verdict> {
    if changes == [] then []
    else VerdictsOf(o, push, changes[..|changes| - 1]) + [VerdictOf(o, push, changes[|changes| - 1])]
  }

  function Passing(o: Options, push: bool): Change -> bool {
    (c: Change) => Passes(o, push, c.meta)
  }

  function Failing(o: Options, push: bool): Change -> bool {
    (c: Change) => !Passes(o, push, c.meta)
  }

  /** Some decision was asked for. */
  predicate Asked(o: Options, push: bool, changes: seq<Change>) {
    exists c :: c in changes && RequirementsIn(o, push, c.meta) != []
  }

  /** The version reported: that of the bundle, once anything was decided under it. */
  function Version(o: Options, push: bool, changes: seq<Change>): string {
    if Asked(o, push, changes) then o.bundle.version else ""
  }

  function Filtered(o: Options, push: bool, mode: Mode, set_: PatchSet): Outcome {
    var verdicts := VerdictsOf(o, push, set_.changes);
    var kept, dropped := Kept(set_.changes, Passing(o, push)), Kept(set_.changes, Failing(o, push));
    var version := Version(o, push, set_.changes);
    if mode == Reject && dropped != [] then Outcome(mode, verdicts, kept, dropped, "", true, version)
    else Outcome(mode, verdicts, kept, dropped, RenderOf(set_, Passing(o, push)), false, version)
  }

  predicate ValidOptions(o: Options) {
    o.repo != "" && o.subject.user != ""
  }

  /** The mode a text names; no text is the default. */
  function ModeOf(text: string): Option<Mode> {
    if text == "reject" || text == "" then Some(Reject) else if text == "strip" then Some(Strip) else None
  }

  function PushOf(o: Options, set_: PatchSet, mode: Mode): Result<Outcome, string> {
    if !ValidOptions(o) then Failure("enforce: bad options") else Success(Filtered(o, true, mode, set_))
  }

  function PullOf(o: Options, set_: PatchSet): Result<Outcome, string> {
    if !ValidOptions(o) then Failure("enforce: bad options") else Success(Filtered(o, false, Strip, set_))
  }

  // ---------------------------------------------------------------- the code

  /** A parsed set numbers its changes. */
  predicate Numbered(set_: PatchSet) {
    forall i :: 0 <= i < |set_.changes| ==> set_.changes[i].index == i
  }

  lemma OneMoreCheck(o: Options, reqs: seq<Requirement>, i: nat)
    requires i < |reqs|
    ensures var q := reqs[i];
      var d := DecisionFor(o, q.path, q.action);
      && ChecksOf(o, reqs[..i + 1]) == ChecksOf(o, reqs[..i]) + [Check(q.path, q.action, q.guard, d)]
      && (AllAllowed(o, reqs[..i + 1]) <==> AllAllowed(o, reqs[..i]) && d.allowed)
      && d.version == o.bundle.version
  {
    assert reqs[..i + 1] == reqs[..i] + [reqs[i]] && reqs[..i + 1][..i] == reqs[..i];
  }

  method Judge(o: Options, engine: CachingEngine, reqs: seq<Requirement>, version: string)
    returns (checks: seq<Check>, allowed: bool, version': string)
    requires engine.Valid() && engine.g == o.glob && engine.bundle == o.bundle && engine.base == RequestFor(o, "", Read)
    modifies engine
    ensures engine.Valid()
    ensures checks == ChecksOf(o, reqs) && allowed == AllAllowed(o, reqs)
    ensures version' == if version == "" && reqs != [] then o.bundle.version else version
  {
    checks, allowed, version' := [], true, version;
    for i := 0 to |reqs|
      invariant engine.Valid()
      invariant checks == ChecksOf(o, reqs[..i]) && allowed == AllAllowed(o, reqs[..i])
      invariant version' == if version == "" && i > 0 then o.bundle.version else version
    {
      var decision := engine.EvaluateCached(reqs[i].path, reqs[i].action);
      assert decision == DecisionFor(o, reqs[i].path, reqs[i].action);
      OneMoreCheck(o, reqs, i);
      checks := checks + [Check(reqs[i].path, reqs[i].action, reqs[i].guard, decision)];
      if !decision.allowed {
        allowed := false;
      }
      if version' == "" {
        version' := decision.version;
      }
    }
    assert reqs[..|reqs|] == reqs;
  }

  /** Every section is judged in full, also after the first denial. */
  method JudgeAll(o: Options, push: bool, changes: seq<Change>)
    returns (verdicts: seq<Verdict>, kept: seq<Change>, dropped: seq<Change>, version: string)
    ensures verdicts == VerdictsOf(o, push, changes)
    ensures kept == Kept(changes, Passing(o, push))
    ensures dropped == Kept(changes, Failing(o, push))
    ensures version == Version(o, push, changes)
  {
    var engine := new CachingEngine(o.glob, o.bundle, RequestFor(o, "", Read));
    verdicts, kept, dropped, version := [], [], [], "";
    TakeNone(changes);
    for i := 0 to |changes|
      invariant engine.Valid() && fresh(engine)
      invariant Judged(o, push, changes[..i], verdicts, kept, dropped, version)
    {
      ghost var was := version;
      var verdict;
      verdict, version := JudgeOne(o, push, engine, changes[i], version);
      OneMore(o, push, changes[..i], changes[i], verdicts, kept, dropped, was);
      TakeOneMore(changes, i);
      verdicts := verdicts + [verdict];
      if verdict.allowed {
        kept := kept + [changes[i]];
      } else {
        dropped := dropped + [changes[i]];
      }
    }
    TakeAll(changes);
  }

  ghost predicate Judged(o: Options, push: bool, changes: seq<Change>,
                         verdicts: seq<Verdict>, kept: seq<Change>, dropped: seq<Change>, version: string) {
    && verdicts == VerdictsOf(o, push, changes)
    && kept == Kept(changes, Passing(o, push))
    && dropped == Kept(changes, Failing(o, push))
    && version == Version(o, push, changes)
  }

  lemma OneMoreVerdict(o: Options, push: bool, before: seq<Change>, c: Change)
    ensures VerdictsOf(o, push, before + [c]) == VerdictsOf(o, push, before) + [VerdictOf(o, push, c)]
    ensures Asked(o, push, before + [c]) <==> Asked(o, push, before) || RequirementsIn(o, push, c.meta) != []
  {
    assert (before + [c])[..|before|] == before;
    assert forall x :: x in before + [c] <==> x in before || x == c;
  }

  method JudgeOne(o: Options, push: bool, engine: CachingEngine, c: Change, version: string)
    returns (verdict: Verdict, version': string)
    requires engine.Valid() && engine.g == o.glob && engine.bundle == o.bundle && engine.base == RequestFor(o, "", Read)
    modifies engine
    ensures engine.Valid() && verdict == VerdictOf(o, push, c) && version' == VersionAfter(o, push, c, version)
  {
    var checks, allowed;
    checks, allowed, version' := Judge(o, engine, RequirementsIn(o, push, c.meta), version);
    verdict := Verdict(c, checks, allowed);
  }

  function VersionAfter(o: Options, push: bool, c: Change, version: string): string {
    if version == "" && RequirementsIn(o, push, c.meta) != [] then o.bundle.version else version
  }

  lemma OneMore(o: Options, push: bool, before: seq<Change>, c: Change,
                verdicts: seq<Verdict>, kept: seq<Change>, dropped: seq<Change>, version: string)
    requires Judged(o, push, before, verdicts, kept, dropped, version)
    ensures var verdict := VerdictOf(o, push, c);
      Judged(o, push, before + [c], verdicts + [verdict],
             if verdict.allowed then kept + [c] else kept, if verdict.allowed then dropped else dropped + [c],
             VersionAfter(o, push, c, version))
  {
    OneMoreVerdict(o, push, before, c);
    KeptSnoc(before, c, Passing(o, push));
    KeptSnoc(before, c, Failing(o, push));
  }

  /** The pass both directions share: judge every section, then render by index. */
  method Filter(o: Options, push: bool, mode: Mode, set_: PatchSet) returns (r: Outcome)
    requires Numbered(set_)
    ensures r == Filtered(o, push, mode, set_)
  {
    var verdicts, kept, dropped, version := JudgeAll(o, push, set_.changes);
    if mode == Reject && |dropped| > 0 {
      return Outcome(mode, verdicts, kept, dropped, "", true, version);
    }
    var indexes := set c | c in kept :: c.index;
    var out := Render(set_, (c: Change) => c.index in indexes);
    ByIndex(set_, Passing(o, push), indexes);
    r := Outcome(mode, verdicts, kept, dropped, out, false, version);
  }

  /** Keeping by index keeps the same changes. */
  lemma ByIndex(set_: PatchSet, keep: Change -> bool, indexes: set<nat>)
    requires Numbered(set_) && indexes == set c | c in Kept(set_.changes, keep) :: c.index
    ensures RenderOf(set_, (c: Change) => c.index in indexes) == RenderOf(set_, keep)
  {
    KeptAreChanges(set_.changes, keep);
    var byIndex := (c: Change) => c.index in indexes;
    forall c | c in set_.changes ensures byIndex(c) == keep(c) {
      var i :| 0 <= i < |set_.changes| && set_.changes[i] == c;
      if c.index in indexes {
        var d :| d in Kept(set_.changes, keep) && d.index == c.index;
        var j :| 0 <= j < |set_.changes| && set_.changes[j] == d;
      }
    }
    KeptSame(set_.changes, byIndex, keep);
  }

  method Push(o: Options, set_: PatchSet, text: string) returns (r: Result<Outcome, string>)
    requires Numbered(set_)
    ensures r.Failure? <==> !ValidOptions(o) || ModeOf(text).None?
    ensures r.Success? ==> r == PushOf(o, set_, ModeOf(text).value)
  {
    if !ValidOptions(o) {
      return Failure("enforce: bad options");
    }
    var mode := ModeOf(text);
    if mode.None? {
      return Failure("enforce: unknown mode");
    }
    var out := Filter(o, true, mode.value, set_);
    r := Success(out);
  }

  method Pull(o: Options, set_: PatchSet) returns (r: Result<Outcome, string>)
    requires Numbered(set_)
    ensures r == PullOf(o, set_)
  {
    if !ValidOptions(o) {
      return Failure("enforce: bad options");
    }
    var out := Filter(o, false, Strip, set_);
    r := Success(out);
  }

  // ---------------------------------------------------------------- guarantees

  lemma ParsedIsNumbered(parse: SectionParser, raw: Bytes)
    requires ParseOf(parse, raw).Success?
    ensures Numbered(ParseOf(parse, raw).value) && ParseOf(parse, raw).value.changes != []
    ensures forall c :: c in ParseOf(parse, raw).value.changes ==> parse(c.raw) == Some(c.meta)
  {
    RawsOfChanges(parse, SplitOf(raw).sections, 0);
  }

  lemma RenderNonEmpty(parse: SectionParser, raw: Bytes, keep: Change -> bool)
    requires ParseOf(parse, raw).Success?
    ensures var set_ := ParseOf(parse, raw).value; RenderOf(set_, keep) != "" <==> Kept(set_.changes, keep) != []
  {
    var set_ := ParseOf(parse, raw).value;
    var kept := Kept(set_.changes, keep);
    if kept != [] {
      RenderReparses(parse, raw, keep);
      assert Raws(kept) != [];
      assert SplitOf("") == Split("", []);
    }
  }

  /** A push in reject mode yields a patch exactly when the author may make every
      change of it, guards included, and then the patch is the input, byte for byte. */
  lemma RejectIsAllOrNothing(parse: SectionParser, raw: Bytes, o: Options)
    requires ParseOf(parse, raw).Success? && ValidOptions(o)
    ensures var set_ := ParseOf(parse, raw).value;
      var r := PushOf(o, set_, Reject).value;
      var all := forall c :: c in set_.changes ==> MayPush(o, c.meta);
      && (r.patch != "" <==> all) && (r.rejected <==> !all) && (all ==> r.patch == raw)
  {
    var set_ := ParseOf(parse, raw).value;
    var all := forall c :: c in set_.changes ==> MayPush(o, c.meta);
    KeptNone(set_.changes, Failing(o, true));
    ParsedIsNumbered(parse, raw);
    assert all <==> Kept(set_.changes, Failing(o, true)) == [];
    if all {
      AllKeptIsInput(parse, raw, Passing(o, true));
    }
  }

  lemma AllKeptIsInput(parse: SectionParser, raw: Bytes, keep: Change -> bool)
    requires ParseOf(parse, raw).Success? && forall c :: c in ParseOf(parse, raw).value.changes ==> keep(c)
    ensures RenderOf(ParseOf(parse, raw).value, keep) == raw != ""
  {
    var set_ := ParseOf(parse, raw).value;
    ParsedIsNumbered(parse, raw);
    RenderAll(parse, raw, keep);
    assert set_.changes[0] in set_.changes;
    KeptNone(set_.changes, keep);
    RenderNonEmpty(parse, raw, keep);
  }

  /** Filtering what a filter let through changes nothing: in either direction, a
      non-empty result re-parses, and passes again whole. */
  lemma FilterIsIdempotent(parse: SectionParser, raw: Bytes, o: Options, push: bool, mode: Mode)
    requires ParseOf(parse, raw).Success? && ValidOptions(o)
    requires Filtered(o, push, Strip, ParseOf(parse, raw).value).patch != ""
    ensures var out := Filtered(o, push, Strip, ParseOf(parse, raw).value).patch;
      && ParseOf(parse, out).Success?
      && var again := Filtered(o, push, mode, ParseOf(parse, out).value);
         again.dropped == [] && !again.rejected && again.patch == out
  {
    var set_, keep := ParseOf(parse, raw).value, Passing(o, push);
    var out := Filtered(o, push, Strip, set_).patch;
    RenderNonEmpty(parse, raw, keep);
    RenderReparses(parse, raw, keep);
    KeptPasses(parse, raw, o, push);
    var set' := ParseOf(parse, out).value;
    KeptNone(set'.changes, Failing(o, push));
    RenderAll(parse, out, keep);
  }

  /** Every change of a re-parsed result passes. */
  lemma KeptPasses(parse: SectionParser, raw: Bytes, o: Options, push: bool)
    requires ParseOf(parse, raw).Success?
    requires Kept(ParseOf(parse, raw).value.changes, Passing(o, push)) != []
    ensures var out := RenderOf(ParseOf(parse, raw).value, Passing(o, push));
      && ParseOf(parse, out).Success?
      && forall c :: c in ParseOf(parse, out).value.changes ==> Passes(o, push, c.meta)
  {
    var set_, keep := ParseOf(parse, raw).value, Passing(o, push);
    RenderReparses(parse, raw, keep);
    ParsedIsNumbered(parse, raw);
    KeptAreChanges(set_.changes, keep);
    forall c | c in ChangesOf(parse, Raws(Kept(set_.changes, keep)), 0) ensures Passes(o, push, c.meta) {
      var d := ChangeBehind(parse, Kept(set_.changes, keep), c);
    }
  }

  /** A re-parsed change has the metadata of the one it was rendered from. */
  lemma ChangeBehind(parse: SectionParser, kept: seq<Change>, c: Change) returns (d: Change)
    requires forall x :: x in kept ==> parse(x.raw) == Some(x.meta)
    requires forall s :: s in Raws(kept) ==> parse(s).Some?
    requires c in ChangesOf(parse, Raws(kept), 0)
    ensures d in kept && d.meta == c.meta
  {
    var again := ChangesOf(parse, Raws(kept), 0);
    RawsAreOf(kept);
    RawsOfChanges(parse, Raws(kept), 0);
    var i :| 0 <= i < |again| && again[i] == c;
    d := kept[i];
    assert Raws(kept)[i] == d.raw && d in kept;
  }

  lemma {:induction false} RawsAreOf(changes: seq<Change>)
    ensures |Raws(changes)| == |changes|
    ensures forall i :: 0 <= i < |changes| ==> Raws(changes)[i] == changes[i].raw
  {
    if changes != [] {
      RawsAreOf(changes[1..]);
    }
  }

  /** What strip mode let through, reject mode accepts unchanged. */
  lemma StripThenReject(parse: SectionParser, raw: Bytes, o: Options)
    requires ParseOf(parse, raw).Success? && ValidOptions(o)
    requires PushOf(o, ParseOf(parse, raw).value, Strip).value.patch != ""
    ensures var out := PushOf(o, ParseOf(parse, raw).value, Strip).value.patch;
      && ParseOf(parse, out).Success?
      && var again := PushOf(o, ParseOf(parse, out).value, Reject).value;
         !again.rejected && again.patch == out
  {
    FilterIsIdempotent(parse, raw, o, true, Reject);
  }

  /** Pulling a pull drops nothing and returns the same bytes. */
  lemma PullOfPull(parse: SectionParser, raw: Bytes, o: Options)
    requires ParseOf(parse, raw).Success? && ValidOptions(o)
    requires PullOf(o, ParseOf(parse, raw).value).value.patch != ""
    ensures var out := PullOf(o, ParseOf(parse, raw).value).value.patch;
      && ParseOf(parse, out).Success?
      && var again := PullOf(o, ParseOf(parse, out).value).value;
         again.dropped == [] && again.patch == out
  {
    FilterIsIdempotent(parse, raw, o, false, Strip);
  }

  /** No pull delivers a section touching a path the reader may not read: taken from
      the delivered bytes alone, every section re-parses to readable paths. */
  lemma PullDeliversOnlyReadable(parse: SectionParser, raw: Bytes, o: Options, section: Bytes)
    requires ParseOf(parse, raw).Success? && ValidOptions(o)
    requires section in SplitOf(PullOf(o, ParseOf(parse, raw).value).value.patch).sections
    ensures parse(section).Some? && MayRead(o, parse(section).value)
  {
    var set_, keep := ParseOf(parse, raw).value, Passing(o, false);
    var out := RenderOf(set_, keep);
    assert SplitOf("") == Split("", []);
    RenderNonEmpty(parse, raw, keep);
    KeptPasses(parse, raw, o, false);
    var c := ChangeOf(parse, out, section);
    MayReadIsRequirements(o, c.meta);
  }

  /** The parsed change of a section. */
  lemma ChangeOf(parse: SectionParser, raw: Bytes, section: Bytes) returns (c: Change)
    requires ParseOf(parse, raw).Success? && section in SplitOf(raw).sections
    ensures c in ParseOf(parse, raw).value.changes && parse(section) == Some(c.meta)
  {
    var sections := SplitOf(raw).sections;
    RawsOfChanges(parse, sections, 0);
    var i :| 0 <= i < |sections| && sections[i] == section;
    c := ParseOf(parse, raw).value.changes[i];
  }
}
