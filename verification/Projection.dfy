/** Trees, the sections of a diff between them, and the projection a reader holds. */
module Projection {
  import opened Core
  import opened Collections
  import opened Patch
  import Policy
  import Enforce

  type Path = string
  type Tree = map<Path, string>
  type Readable = Path -> bool

  /** A section with what it does: the content it expects and the content it leaves. */
  datatype Section = Section(meta: Meta, before: string, after: string)

  predicate WellFormedMeta(m: Meta) {
    match m.op
    case OpAdd => m.oldPath == "" && m.newPath != ""
    case OpModify => m.oldPath == m.newPath != ""
    case OpDelete => m.oldPath != "" && m.newPath == ""
    case OpRename => m.oldPath != "" && m.newPath != "" && m.oldPath != m.newPath
    case OpCopy => m.oldPath != "" && m.newPath != "" && m.oldPath != m.newPath
  }

  predicate TakesAway(s: Section, p: Path) {
    Removes(s.meta) && s.meta.oldPath == p
  }

  predicate Writes(s: Section, p: Path) {
    (Makes(s.meta) || s.meta.op.OpModify?) && s.meta.newPath == p
  }

  predicate Alters(s: Section, p: Path) {
    TakesAway(s, p) || Writes(s, p)
  }

  function At(t: Tree, p: Path): Option<string> {
    if p in t then Some(t[p]) else None
  }

  /** What git apply checks of a section against the tree. */
  predicate Fits(t: Tree, s: Section) {
    && WellFormedMeta(s.meta)
    && (s.meta.op != OpAdd ==> At(t, s.meta.oldPath) == Some(s.before))
    && (Makes(s.meta) ==> At(t, s.meta.newPath) == None)
  }

  predicate FitsAll(t: Tree, sections: seq<Section>) {
    forall s :: s in sections ==> Fits(t, s)
  }

  predicate RemovedBy(sections: seq<Section>, p: Path) {
    exists s :: s in sections && TakesAway(s, p)
  }

  /** The content the sections leave at a path, the last writer deciding. */
  function WrittenBy(sections: seq<Section>, p: Path): Option<string> {
    if sections == [] then None
    else
      var n := |sections| - 1;
      if Writes(sections[n], p) then Some(sections[n].after) else WrittenBy(sections[..n], p)
  }

  function PathsOf(sections: seq<Section>): set<Path> {
    set s | s in sections :: s.meta.newPath
  }

  /** One path after the patch: removals first, then writes. */
  function AfterAt(before: Option<string>, sections: seq<Section>, p: Path): Option<string> {
    if WrittenBy(sections, p).Some? then WrittenBy(sections, p)
    else if RemovedBy(sections, p) then None
    else before
  }

  function Apply(t: Tree, sections: seq<Section>): Tree {
    map p | p in t.Keys + PathsOf(sections) && AfterAt(At(t, p), sections, p).Some? :: AfterAt(At(t, p), sections, p).value
  }

  lemma {:induction false} WrittenIsListed(sections: seq<Section>, p: Path)
    ensures WrittenBy(sections, p).Some? ==> p in PathsOf(sections)
  {
    if sections != [] {
      WrittenIsListed(sections[..|sections| - 1], p);
    }
  }

  lemma ApplyAt(t: Tree, sections: seq<Section>, p: Path)
    ensures At(Apply(t, sections), p) == AfterAt(At(t, p), sections, p)
  {
    WrittenIsListed(sections, p);
  }

  /** A diff of two trees, as the worker computes it. */
  ghost predicate IsDiff(from: Tree, to: Tree, sections: seq<Section>) {
    FitsAll(from, sections) && Apply(from, sections) == to
  }

  function Project(t: Tree, readable: Readable): Tree {
    map p | p in t && readable(p) :: t[p]
  }

  predicate Visible(s: Section, readable: Readable) {
    forall p :: p in Paths(s.meta) ==> readable(p)
  }

  /** What a pull delivers of a diff: the sections all of whose paths are readable. */
  function Deliver(sections: seq<Section>, readable: Readable): seq<Section> {
    Kept(sections, Showing(readable))
  }

  function Showing(readable: Readable): Section -> bool {
    (s: Section) => Visible(s, readable)
  }

  /** A section that alters a readable path while touching an unreadable one. */
  predicate Straddles(s: Section, readable: Readable) {
    !Visible(s, readable) && exists p :: p in Paths(s.meta) && Alters(s, p) && readable(p)
  }

  predicate AnyStraddles(sections: seq<Section>, readable: Readable) {
    exists s :: s in sections && Straddles(s, readable)
  }

  lemma AlteredIsTouched(s: Section, p: Path)
    requires WellFormedMeta(s.meta) && Alters(s, p)
    ensures p in Paths(s.meta)
  {
  }

  lemma DeliveredAre(sections: seq<Section>, readable: Readable)
    ensures forall s :: s in Deliver(sections, readable) <==> s in sections && Visible(s, readable)
  {
    KeptAre(sections, Showing(readable));
  }

  /** Without straddling sections, delivery keeps every effect on readable paths. */
  lemma {:induction false} DeliveryKeepsWrites(sections: seq<Section>, readable: Readable, p: Path)
    requires readable(p) && !AnyStraddles(sections, readable)
    requires forall s :: s in sections ==> WellFormedMeta(s.meta)
    ensures WrittenBy(Deliver(sections, readable), p) == WrittenBy(sections, p)
    ensures RemovedBy(Deliver(sections, readable), p) == RemovedBy(sections, p)
  {
    DeliveredAre(sections, readable);
    forall s | s in sections && Alters(s, p) ensures Visible(s, readable) {
      AlteredIsTouched(s, p);
      assert !Straddles(s, readable);
    }
    WritesSurvive(sections, readable, p);
  }

  lemma {:induction false} WritesSurvive(sections: seq<Section>, readable: Readable, p: Path)
    requires forall s :: s in sections && Writes(s, p) ==> Visible(s, readable)
    ensures WrittenBy(Deliver(sections, readable), p) == WrittenBy(sections, p)
  {
    if sections != [] {
      var n := |sections| - 1;
      var front, last := sections[..n], sections[n];
      assert last in sections;
      WritesSurvive(front, readable, p);
      var d := Deliver(front, readable);
      assert sections == front + [last];
      KeptSnoc(front, last, Showing(readable));
      if Visible(last, readable) {
        assert (d + [last])[..|d|] == d;
      } else {
        assert d + [] == d;
      }
    }
  }

  /** Nothing is delivered at an unreadable path. */
  lemma DeliveryIsReadable(sections: seq<Section>, readable: Readable, p: Path)
    requires forall s :: s in sections ==> WellFormedMeta(s.meta)
    requires !readable(p)
    ensures WrittenBy(Deliver(sections, readable), p) == None
    ensures !RemovedBy(Deliver(sections, readable), p)
  {
    DeliveredAre(sections, readable);
    var d := Deliver(sections, readable);
    forall s | s in d ensures !Alters(s, p) {
      if Alters(s, p) { AlteredIsTouched(s, p); }
    }
    NobodyWrites(d, p);
  }

  lemma {:induction false} NobodyWrites(sections: seq<Section>, p: Path)
    ensures WrittenBy(sections, p) == None <==> forall s :: s in sections ==> !Writes(s, p)
  {
    if sections != [] {
      var n := |sections| - 1;
      NobodyWrites(sections[..n], p);
      assert sections == sections[..n] + [sections[n]];
    }
  }

  /** Two trees agree on everything the reader may read. */
  ghost predicate Agree(a: Tree, b: Tree, readable: Readable) {
    forall p :: readable(p) ==> At(a, p) == At(b, p)
  }

  ghost predicate OnlyReadable(t: Tree, readable: Readable) {
    forall p :: p in t ==> readable(p)
  }

  /** Holding exactly the projection is agreeing with it and holding nothing else. */
  lemma ProjectionIsAgreement(held: Tree, upstream: Tree, readable: Readable)
    ensures held == Project(upstream, readable) <==> Agree(held, upstream, readable) && OnlyReadable(held, readable)
  {
    if Agree(held, upstream, readable) && OnlyReadable(held, readable) {
      forall p ensures At(held, p) == At(Project(upstream, readable), p) {
      }
      SameTree(held, Project(upstream, readable));
    }
  }

  lemma SameTree(a: Tree, b: Tree)
    requires forall p :: At(a, p) == At(b, p)
    ensures a == b
  {
    forall p ensures p in a <==> p in b { assert At(a, p) == At(b, p); }
    forall p | p in a ensures a[p] == b[p] { assert At(a, p) == At(b, p); }
  }

  /** A reader who agrees with the old tree and applies what was delivered agrees with
      the new one, and gains no unreadable path; the delivered patch always fits. */
  lemma DeliveryFollows(held: Tree, from: Tree, to: Tree, diff: seq<Section>, readable: Readable)
    requires IsDiff(from, to, diff) && !AnyStraddles(diff, readable) && Agree(held, from, readable)
    ensures FitsAll(held, Deliver(diff, readable))
    ensures Agree(Apply(held, Deliver(diff, readable)), to, readable)
    ensures OnlyReadable(held, readable) ==> OnlyReadable(Apply(held, Deliver(diff, readable)), readable)
  {
    var d := Deliver(diff, readable);
    DeliveredAre(diff, readable);
    forall s | s in d ensures Fits(held, s) {
      assert Fits(from, s);
    }
    forall p | readable(p) ensures At(Apply(held, d), p) == At(to, p) {
      DeliveryKeepsWrites(diff, readable, p);
      ApplyAt(held, d, p);
      ApplyAt(from, diff, p);
    }
    if OnlyReadable(held, readable) {
      forall p | !readable(p) ensures p !in Apply(held, d) {
        DeliveryIsReadable(diff, readable, p);
        ApplyAt(held, d, p);
      }
    }
  }

  /** Applying the filtered patch to the projection of the old tree gives the
      projection of the new one. */
  lemma FilteredPatchProjects(from: Tree, to: Tree, diff: seq<Section>, readable: Readable)
    requires IsDiff(from, to, diff) && !AnyStraddles(diff, readable)
    ensures FitsAll(Project(from, readable), Deliver(diff, readable))
    ensures Apply(Project(from, readable), Deliver(diff, readable)) == Project(to, readable)
  {
    ProjectionIsAgreement(Project(from, readable), from, readable);
    DeliveryFollows(Project(from, readable), from, to, diff, readable);
    ProjectionIsAgreement(Apply(Project(from, readable), Deliver(diff, readable)), to, readable);
  }

  /** The effect of parsed changes on a tree, given the effect of each. */
  function Effects(changes: seq<Change>, effect: Change -> Section): seq<Section> {
    if changes == [] then [] else [effect(changes[0])] + Effects(changes[1..], effect)
  }

  /** Keeping changes keeps their effects. */
  lemma {:induction false} KeptEffects(changes: seq<Change>, effect: Change -> Section, keep: Change -> bool, ok: Section -> bool)
    requires forall c :: c in changes ==> (keep(c) <==> ok(effect(c)))
    ensures Effects(Kept(changes, keep), effect) == Kept(Effects(changes, effect), ok)
    ensures |Effects(changes, effect)| == |changes|
  {
    if changes != [] {
      var c, rest := changes[0], changes[1..];
      assert c in changes;
      KeptEffects(rest, effect, keep, ok);
      var kept, effects := Kept(rest, keep), Effects(rest, effect);
      assert ([c] + kept)[1..] == kept && [] + kept == kept;
      assert ([effect(c)] + effects)[1..] == effects && [] + Kept(effects, ok) == Kept(effects, ok);
      assert Effects([c] + kept, effect) == [effect(c)] + Effects(kept, effect);
    }
  }

  function ReadableBy(o: Enforce.Options): Readable {
    (p: Path) => Enforce.Allowed(o, p, Policy.Read)
  }

  /** Delivery is what enforcement keeps of a pull: the kept changes have exactly the
      effects of the delivered sections. */
  lemma PullIsDelivery(o: Enforce.Options, changes: seq<Change>, effect: Change -> Section)
    requires forall c :: c in changes ==> effect(c).meta == c.meta
    ensures Effects(Kept(changes, Enforce.Passing(o, false)), effect) == Deliver(Effects(changes, effect), ReadableBy(o))
  {
    forall c | c in changes ensures Enforce.Passing(o, false)(c) <==> Visible(effect(c), ReadableBy(o)) {
      Enforce.MayReadIsRequirements(o, c.meta);
    }
    KeptEffects(changes, effect, Enforce.Passing(o, false), Showing(ReadableBy(o)));
  }

  /** The sections an author may push. */
  function PushableBy(o: Enforce.Options): Section -> bool {
    (s: Section) => Enforce.MayPush(o, s.meta)
  }

  /** And of a push: the kept changes have the effects of the pushable sections. */
  lemma PushIsKeeping(o: Enforce.Options, changes: seq<Change>, effect: Change -> Section)
    requires forall c :: c in changes ==> effect(c).meta == c.meta
    ensures Effects(Kept(changes, Enforce.Passing(o, true)), effect) == Kept(Effects(changes, effect), PushableBy(o))
  {
    KeptEffects(changes, effect, Enforce.Passing(o, true), PushableBy(o));
  }

  /** A diff that says nothing twice and nothing needlessly. */
  ghost predicate Minimal(from: Tree, to: Tree, diff: seq<Section>) {
    && (forall s, p :: s in diff && Alters(s, p) ==> At(from, p) != At(to, p))
    && (forall s, s', p :: s in diff && s' in diff && Alters(s, p) && Alters(s', p) ==> s == s')
  }

  /** And exactly then: of a minimal diff, the projection comes out if and only if no
      section straddles the read boundary. Such a section is dropped whole. */
  lemma ProjectsIffNoneStraddles(from: Tree, to: Tree, diff: seq<Section>, readable: Readable)
    requires IsDiff(from, to, diff) && Minimal(from, to, diff)
    ensures Apply(Project(from, readable), Deliver(diff, readable)) == Project(to, readable)
      <==> !AnyStraddles(diff, readable)
  {
    if !AnyStraddles(diff, readable) {
      FilteredPatchProjects(from, to, diff, readable);
    } else {
      var s :| s in diff && Straddles(s, readable);
      var p :| p in Paths(s.meta) && Alters(s, p) && readable(p);
      var d := Deliver(diff, readable);
      DeliveredAre(diff, readable);
      forall x | x in d ensures !Alters(x, p) {
        assert x in diff && x != s;
      }
      NobodyWrites(d, p);
      ApplyAt(Project(from, readable), d, p);
      assert At(Project(from, readable), p) == At(from, p);
      assert At(Project(to, readable), p) == At(to, p);
    }
  }

  function RenameOf(content: string): Section {
    Section(Meta(OpRename, "a", "b", 0, 0), content, content)
  }

  lemma RenameIsMinimalDiff(content: string)
    ensures IsDiff(map["a" := content], map["b" := content], [RenameOf(content)])
    ensures Minimal(map["a" := content], map["b" := content], [RenameOf(content)])
  {
    var from: Tree, to: Tree, s := map["a" := content], map["b" := content], RenameOf(content);
    assert "a"[0] != "b"[0];
    assert [s][..|[s]| - 1] == [];
    assert s in [s] && TakesAway(s, "a");
    assert WrittenBy([], "a") == None && !Writes(s, "a") && Writes(s, "b");
    assert WrittenBy([s], "a") == None && WrittenBy([s], "b") == Some(content);
    assert Apply(from, [s]) == to;
  }

  /** A rename out of sight: the reader keeps the file under its old name. */
  lemma RenameOutOfSight(content: string)
    ensures var from, to, diff := map["a" := content], map["b" := content], [RenameOf(content)];
      var readable := (p: Path) => p == "a";
      && IsDiff(from, to, diff) && Minimal(from, to, diff)
      && Apply(Project(from, readable), Deliver(diff, readable)) == from != Project(to, readable) == map[]
  {
    RenameIsMinimalDiff(content);
    var from: Tree, s := map["a" := content], RenameOf(content);
    var readable := (p: Path) => p == "a";
    assert "a"[0] != "b"[0] && !readable("b");
    assert Paths(s.meta)[1] == "b" && "b" in Paths(s.meta);
    assert !Visible(s, readable);
    KeptNone([s], Showing(readable));
    assert Deliver([s], readable) == [];
    assert Apply(from, []) == from;
  }

  /** A pushed diff acts on what the author can read as it acts upstream. */
  lemma PushFollows(held: Tree, head: Tree, base: Tree, diff: seq<Section>, readable: Readable)
    requires IsDiff(held, head, diff) && Agree(held, base, readable)
    ensures Agree(head, Apply(base, diff), readable)
  {
    forall p | readable(p) ensures At(head, p) == At(Apply(base, diff), p) {
      ApplyAt(held, diff, p);
      ApplyAt(base, diff, p);
    }
  }

  /** The pushed tree holds an unreadable file exactly when the push wrote one. */
  lemma PushKeepsReadable(held: Tree, head: Tree, diff: seq<Section>, readable: Readable)
    requires IsDiff(held, head, diff) && OnlyReadable(held, readable)
    ensures OnlyReadable(head, readable) <==> forall s, p :: s in diff && Writes(s, p) ==> readable(p)
  {
    if OnlyReadable(head, readable) {
      forall s, p | s in diff && Writes(s, p) ensures readable(p) {
        NobodyWrites(diff, p);
        ApplyAt(held, diff, p);
        assert p in head;
      }
    } else {
      var p :| p in head && !readable(p);
      ApplyAt(held, diff, p);
      NobodyWrites(diff, p);
    }
  }
}
