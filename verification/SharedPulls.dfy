/** Pulls through the cache: a projection computed for one subject is served to
    another, and is byte for byte the one that subject would have received. */
module SharedPulls {
  import opened Core
  import opened Collections
  import opened Encoding
  import opened Policy
  import opened Profile
  import opened Patch
  import opened Enforce
  import opened PullCache

  /** What the deployment fixes: hashing, globbing, the section parser, the forge's
      diffs, the blob store's digests, the guards, and the bundle behind a version. */
  datatype World = World(
    hash: string -> string,
    glob: Glob,
    parse: SectionParser,
    diff: (string, string, string) -> Bytes,
    digest: Bytes -> string,
    guards: Guards,
    bundles: string -> Bundle)

  /** One pull, after the tip was resolved. */
  datatype Pull = Pull(remote: string, from: string, to: string, bundle: Bundle, repo: string, ref: string, user: string)

  datatype PullError = BadPatch(error: Error) | UserNotInPolicy

  /** The bundle in force is the one its version identifies; it was compiled, so no user
      id is empty. */
  ghost predicate Deployed(w: World, p: Pull) {
    p.bundle == w.bundles(p.bundle.version) && p.repo != "" && "" !in p.bundle.disabled
  }

  /** And the account is in it: only then a key is made. */
  ghost predicate InForce(w: World, p: Pull) {
    Deployed(w, p) && p.user in p.bundle.disabled
  }

  function OptionsOf(w: World, p: Pull): Options {
    Options(w.glob, p.bundle, p.repo, p.ref, SubjectOf(p.bundle, p.user), w.guards)
  }

  function ProfileFor(w: World, p: Pull): string {
    ProfileOf(w.hash, w.glob, p.bundle, p.repo, p.ref, Read, SubjectOf(p.bundle, p.user))
  }

  function HashOf(w: World, p: Pull): string {
    KeyHash(w.hash, Key(p.remote, p.from, p.to, ProfileFor(w, p)))
  }

  datatype Projected = Projected(patch: Bytes, total: nat, delivered: nat, withheld: nat)

  /** The bytes of the white-space character at the front, in UTF-8; 0 if there is none. */
  function SpaceLength(raw: Bytes): (n: nat)
    ensures n <= |raw|
  {
    var at := (i: nat) => if i < |raw| then raw[i] as int else -1;
    if 9 <= at(0) <= 13 || at(0) == 32 then 1
    else if at(0) == 0xC2 && (at(1) == 0x85 || at(1) == 0xA0) then 2
    else if at(0) == 0xE1 && at(1) == 0x9A && at(2) == 0x80 then 3
    else if at(0) == 0xE2 && at(1) == 0x80 && (0x80 <= at(2) <= 0x8A || at(2) == 0xA8 || at(2) == 0xA9 || at(2) == 0xAF) then 3
    else if at(0) == 0xE2 && at(1) == 0x81 && at(2) == 0x9F then 3
    else if at(0) == 0xE3 && at(1) == 0x80 && at(2) == 0x80 then 3
    else 0
  }

  /** Nothing left once white space is trimmed. */
  predicate Blank(raw: Bytes)
    decreases |raw|
  {
    raw == "" || (SpaceLength(raw) > 0 && Blank(raw[SpaceLength(raw)..]))
  }

  /** filterForReader: the filtered diff and its counts, recomputed. */
  ghost function Recompute(w: World, p: Pull): Result<Projected, PullError> {
    var raw := w.diff(p.remote, p.from, p.to);
    if Blank(raw) then Success(Projected("", 0, 0, 0))
    else
      match ParseOf(w.parse, raw)
      case Failure(Empty) => Success(Projected("", 0, 0, 0))
      case Failure(e) => Failure(BadPatch(e))
      case Success(set_) =>
        if p.user !in p.bundle.disabled then Failure(UserNotInPolicy)
        else
          var r := Filtered(OptionsOf(w, p), false, Strip, set_);
          Success(Projected(r.patch, |r.verdicts|, |r.kept|, |r.dropped|))
  }

  function EntryOf(w: World, r: Projected): Entry {
    Entry(if r.patch == "" then None else Some(w.digest(r.patch)), r.total, r.delivered, r.withheld)
  }

  // ---------------------------------------------------------------- what a pull delivers

  /** The section is for this reader: it parses, and every path it touches is readable. */
  ghost predicate Readable(w: World, p: Pull, section: Bytes) {
    w.parse(section).Some? && MayRead(OptionsOf(w, p), w.parse(section).value)
  }

  ghost function ReadableTo(w: World, p: Pull): Bytes -> bool {
    (section: Bytes) => Readable(w, p, section)
  }

  lemma {:induction false} KeptRaws(parse: SectionParser, sections: seq<Bytes>, from: nat, keep: Change -> bool, ok: Bytes -> bool)
    requires forall s :: s in sections ==> parse(s).Some?
    requires forall c: Change :: parse(c.raw) == Some(c.meta) ==> (keep(c) <==> ok(c.raw))
    ensures Raws(Kept(ChangesOf(parse, sections, from), keep)) == Kept(sections, ok)
  {
    if sections != [] {
      KeptRaws(parse, sections[1..], from + 1, keep, ok);
      var changes, rest := ChangesOf(parse, sections, from), ChangesOf(parse, sections[1..], from + 1);
      assert changes[0].raw == sections[0] && changes[1..] == rest;
      var kept := Kept(rest, keep);
      assert ([changes[0]] + kept)[1..] == kept && [] + kept == kept;
      assert [] + Kept(sections[1..], ok) == Kept(sections[1..], ok);
    }
  }

  /** What a reader gets of a diff is exactly its sections they may read, in order and byte
      for byte, and the counts say how many there were, went out and were withheld. */
  lemma DeliversExactlyTheReadable(w: World, p: Pull)
    requires InForce(w, p)
    requires var raw := w.diff(p.remote, p.from, p.to); !Blank(raw) && ParseOf(w.parse, raw).Success?
    ensures var sections := SplitOf(w.diff(p.remote, p.from, p.to)).sections;
      && Recompute(w, p).Success?
      && var r := Recompute(w, p).value;
         && SplitOf(r.patch).sections == Kept(sections, ReadableTo(w, p))
         && r.total == |sections| && r.delivered == |Kept(sections, ReadableTo(w, p))|
         && r.delivered + r.withheld == r.total
  {
    var raw, o := w.diff(p.remote, p.from, p.to), OptionsOf(w, p);
    var set_, sections := ParseOf(w.parse, raw).value, SplitOf(raw).sections;
    var keep := Passing(o, false);
    forall c: Change | w.parse(c.raw) == Some(c.meta) ensures keep(c) <==> ReadableTo(w, p)(c.raw) {
      MayReadIsRequirements(o, c.meta);
    }
    KeptRaws(w.parse, sections, 0, keep, ReadableTo(w, p));
    RawsOfChanges(w.parse, sections, 0);
    SectionsOfRendered(w.parse, raw, keep);
    VerdictCount(o, false, set_.changes);
    RawsAreOf(Kept(set_.changes, keep));
    KeptParts(set_.changes, keep, Failing(o, false));
  }

  lemma SectionsOfRendered(parse: SectionParser, raw: Bytes, keep: Change -> bool)
    requires ParseOf(parse, raw).Success?
    ensures var set_ := ParseOf(parse, raw).value; SplitOf(RenderOf(set_, keep)).sections == Raws(Kept(set_.changes, keep))
  {
    var set_ := ParseOf(parse, raw).value;
    if Kept(set_.changes, keep) != [] {
      RenderReparses(parse, raw, keep);
    } else {
      assert SplitOf("") == Split("", []);
    }
  }

  /** Every pull that succeeds, blank and empty diffs included. */
  lemma DeliversOnlyReadable(w: World, p: Pull, section: Bytes)
    requires InForce(w, p) && Recompute(w, p).Success? && section in SplitOf(Recompute(w, p).value.patch).sections
    ensures Readable(w, p, section)
  {
    var raw := w.diff(p.remote, p.from, p.to);
    assert SplitOf("") == Split("", []);
    DeliversExactlyTheReadable(w, p);
    KeptAre(SplitOf(raw).sections, ReadableTo(w, p));
  }

  lemma CountsAddUp(w: World, p: Pull)
    requires InForce(w, p) && Recompute(w, p).Success?
    ensures Recompute(w, p).value.delivered + Recompute(w, p).value.withheld == Recompute(w, p).value.total
  {
    var raw := w.diff(p.remote, p.from, p.to);
    if !Blank(raw) && ParseOf(w.parse, raw).Success? {
      DeliversExactlyTheReadable(w, p);
    }
  }

  /** The entry describes a patch of readable sections, and its counts add up. */
  ghost predicate Describes(w: World, p: Pull, e: Entry, patch: Bytes) {
    && e.patch == (if patch == "" then None else Some(w.digest(patch)))
    && (forall section :: section in SplitOf(patch).sections ==> Readable(w, p, section))
    && e.delivered + e.withheld == e.total
    && e.delivered == |SplitOf(patch).sections|
  }

  lemma EntryDescribes(w: World, p: Pull)
    requires InForce(w, p) && Recompute(w, p).Success?
    ensures Describes(w, p, EntryOf(w, Recompute(w, p).value), Recompute(w, p).value.patch)
  {
    var raw := w.diff(p.remote, p.from, p.to);
    assert SplitOf("") == Split("", []);
    CountsAddUp(w, p);
    forall section | section in SplitOf(Recompute(w, p).value.patch).sections ensures Readable(w, p, section) {
      DeliversOnlyReadable(w, p, section);
    }
    if !Blank(raw) && ParseOf(w.parse, raw).Success? {
      DeliversExactlyTheReadable(w, p);
    }
  }

  // ---------------------------------------------------------------- equal keys, equal projections

  lemma {:induction false} VerdictCount(o: Options, push: bool, changes: seq<Change>)
    ensures |VerdictsOf(o, push, changes)| == |changes|
  {
    if changes != [] {
      VerdictCount(o, push, changes[..|changes| - 1]);
    }
  }

  /** Subjects with the same read decisions get the same bytes and the same counts. */
  lemma SameDecisionsSameFilter(o: Options, o': Options, set_: PatchSet)
    requires forall p :: Allowed(o, p, Read) == Allowed(o', p, Read)
    ensures var r, r' := Filtered(o, false, Strip, set_), Filtered(o', false, Strip, set_);
      r.patch == r'.patch && r.kept == r'.kept && r.dropped == r'.dropped && |r.verdicts| == |r'.verdicts|
  {
    forall c | c in set_.changes
      ensures Passing(o, false)(c) == Passing(o', false)(c) && Failing(o, false)(c) == Failing(o', false)(c)
    {
      MayReadIsRequirements(o, c.meta);
      MayReadIsRequirements(o', c.meta);
    }
    KeptSame(set_.changes, Passing(o, false), Passing(o', false));
    KeptSame(set_.changes, Failing(o, false), Failing(o', false));
    VerdictCount(o, false, set_.changes);
    VerdictCount(o', false, set_.changes);
  }

  /** Two pulls with one cache key want the same projection, whoever they are for. */
  lemma SameKeySameProjection(w: World, p: Pull, q: Pull)
    requires Injective(w.hash) && InForce(w, p) && InForce(w, q) && HashOf(w, p) == HashOf(w, q)
    ensures Recompute(w, p) == Recompute(w, q)
  {
    KeyHashInjective(w.hash, Key(p.remote, p.from, p.to, ProfileFor(w, p)), Key(q.remote, q.from, q.to, ProfileFor(w, q)));
    VersionsNeverShare(w.hash, w.glob, p.bundle, q.bundle, p.repo, p.ref, Read, SubjectOf(p.bundle, p.user), q.repo, q.ref, Read, SubjectOf(q.bundle, q.user));
    var o, o' := OptionsOf(w, p), OptionsOf(w, q);
    forall path ensures Allowed(o, path, Read) == Allowed(o', path, Read) {
      EqualProfilesDecideAlike(w.hash, w.glob, p.bundle, p.repo, p.ref, Read, SubjectOf(p.bundle, p.user), q.repo, q.ref, Read, SubjectOf(q.bundle, q.user), path);
    }
    var raw := w.diff(p.remote, p.from, p.to);
    if ParseOf(w.parse, raw).Success? {
      SameDecisionsSameFilter(o, o', ParseOf(w.parse, raw).value);
    }
  }

  // ---------------------------------------------------------------- runs

  /** A step of some pull on the shared cache: looking up, dropping an entry whose blob
      was lost, or storing what it computed. */
  datatype Step =
    | LookUp(pull: Pull, now: int)
    | BlobLost(pull: Pull)
    | Compute(pull: Pull, now: int)

  ghost predicate Legal(w: World, s: Step) {
    InForce(w, s.pull) && (s.Compute? ==> Recompute(w, s.pull).Success?)
  }

  ghost function OpOf(w: World, s: Step): PullCache.Op
    requires Legal(w, s)
  {
    match s
    case LookUp(p, now) => Lookup(HashOf(w, p), now)
    case BlobLost(p) => Forget(HashOf(w, p))
    case Compute(p, now) => Store(HashOf(w, p), EntryOf(w, Recompute(w, p).value), now)
  }

  ghost function After(w: World, c: State, steps: seq<Step>, ttl: int, max: nat): State
    requires forall s :: s in steps ==> Legal(w, s)
    decreases |steps|
  {
    if steps == [] then c
    else
      assert steps[0] in steps;
      After(w, Exec(Log(c, map[]), OpOf(w, steps[0]), ttl, max).cache, steps[1..], ttl, max)
  }

  /** Each entry is the projection of some pull with that key. */
  ghost predicate Truthful(w: World, c: State) {
    forall h :: h in c.entries ==> exists p :: Computed(w, p, h, c.entries[h].entry)
  }

  ghost predicate Computed(w: World, p: Pull, h: string, e: Entry) {
    InForce(w, p) && HashOf(w, p) == h && Recompute(w, p).Success? && e == EntryOf(w, Recompute(w, p).value)
  }

  /** Entries that were there before are as true as they were. */
  lemma FewerEntries(w: World, before: State, after: State)
    requires Truthful(w, before)
    requires forall k :: k in after.entries ==> k in before.entries && after.entries[k] == before.entries[k]
    ensures Truthful(w, after)
  {
  }

  /** One more entry, computed by a pull with that key. */
  lemma OneMoreEntry(w: World, before: State, after: State, p: Pull)
    requires Truthful(w, before) && InForce(w, p) && Recompute(w, p).Success?
    requires forall k :: k in after.entries && k != HashOf(w, p) ==> k in before.entries && after.entries[k] == before.entries[k]
    requires HashOf(w, p) in after.entries ==> after.entries[HashOf(w, p)].entry == EntryOf(w, Recompute(w, p).value)
    ensures Truthful(w, after)
  {
    forall h | h in after.entries ensures exists q :: Computed(w, q, h, after.entries[h].entry) {
      if h == HashOf(w, p) {
        assert Computed(w, p, h, after.entries[h].entry);
      } else {
        var q :| Computed(w, q, h, before.entries[h].entry);
      }
    }
  }

  lemma StoreKeepsTruth(w: World, c: State, p: Pull, now: int, ttl: int, max: nat)
    requires Truthful(w, c) && Consistent(c, max) && InForce(w, p) && Recompute(w, p).Success?
    ensures Truthful(w, Stored(c, HashOf(w, p), EntryOf(w, Recompute(w, p).value), now, ttl, max))
  {
    var h, e := HashOf(w, p), EntryOf(w, Recompute(w, p).value);
    StoredConsistent(c, h, e, now, ttl, max);
    OneMoreEntry(w, c, Stored(c, h, e, now, ttl, max), p);
  }

  lemma StepKeepsTruth(w: World, c: State, s: Step, ttl: int, max: nat)
    requires Truthful(w, c) && Consistent(c, max) && Legal(w, s)
    ensures Truthful(w, Exec(Log(c, map[]), OpOf(w, s), ttl, max).cache)
    ensures Consistent(Exec(Log(c, map[]), OpOf(w, s), ttl, max).cache, max)
  {
    if s.Compute? {
      StoredConsistent(c, HashOf(w, s.pull), EntryOf(w, Recompute(w, s.pull).value), s.now, ttl, max);
      StoreKeepsTruth(w, c, s.pull, s.now, ttl, max);
    } else {
      var op := OpOf(w, s);
      ReadingConsistent(c, op, ttl, max);
      FewerEntries(w, c, Exec(Log(c, map[]), op, ttl, max).cache);
    }
  }

  /** Looking up and forgetting add no entry. */
  lemma ReadingConsistent(c: State, op: PullCache.Op, ttl: int, max: nat)
    requires Consistent(c, max) && !op.Store?
    ensures var c' := Exec(Log(c, map[]), op, ttl, max).cache;
      && Consistent(c', max)
      && forall k :: k in c'.entries ==> k in c.entries && c'.entries[k] == c.entries[k]
  {
    RemovedConsistent(c, op.key, max);
    if op.key in c.entries { MovedToFront(c, op.key, max); }
  }

  /** What a truthful cache answers is what recomputing would. */
  lemma TruthfulHit(w: World, c: State, p: Pull)
    requires Injective(w.hash) && InForce(w, p) && Truthful(w, c) && HashOf(w, p) in c.entries
    ensures Recompute(w, p).Success? && c.entries[HashOf(w, p)].entry == EntryOf(w, Recompute(w, p).value)
  {
    var h := HashOf(w, p);
    var q :| Computed(w, q, h, c.entries[h].entry);
    SameKeySameProjection(w, p, q);
  }

  lemma {:induction false} RunKeepsTruth(w: World, c: State, steps: seq<Step>, ttl: int, max: nat)
    requires Truthful(w, c) && Consistent(c, max) && forall s :: s in steps ==> Legal(w, s)
    ensures Truthful(w, After(w, c, steps, ttl, max)) && Consistent(After(w, c, steps, ttl, max), max)
    decreases |steps|
  {
    if steps != [] {
      assert steps[0] in steps;
      StepKeepsTruth(w, c, steps[0], ttl, max);
      RunKeepsTruth(w, Exec(Log(c, map[]), OpOf(w, steps[0]), ttl, max).cache, steps[1..], ttl, max);
    }
  }

  /** In every run of pulls, evictions, expiries and blob losses: a hit is the entry
      recomputing for this very subject would produce, digest and counts. */
  lemma HitIsRecomputation(w: World, steps: seq<Step>, ttl: int, max: nat, p: Pull, now: int)
    requires Injective(w.hash) && InForce(w, p) && forall s :: s in steps ==> Legal(w, s)
    ensures var hit := LookedUp(After(w, EMPTY, steps, ttl, max), HashOf(w, p), now).1;
      hit.Some? ==> Recompute(w, p).Success? && hit.value == EntryOf(w, Recompute(w, p).value)
  {
    RunKeepsTruth(w, EMPTY, steps, ttl, max);
    var c, h := After(w, EMPTY, steps, ttl, max), HashOf(w, p);
    if h in c.entries {
      TruthfulHit(w, c, p);
    }
  }

  method CacheKey(w: World, p: Pull) returns (key: string)
    ensures key == HashOf(w, p)
  {
    var profile := ComputeProfile(w.hash, w.glob, p.bundle, p.repo, p.ref, Read, SubjectOf(p.bundle, p.user));
    key := KeyHash(w.hash, Key(p.remote, p.from, p.to, profile));
  }

  method Reuse(w: World, cache: Cache, p: Pull, now: int, blobGone: string -> bool) returns (hit: Option<Entry>)
    requires Injective(w.hash) && InForce(w, p) && cache.Valid() && Truthful(w, cache.Now())
    modifies cache
    ensures cache.Valid() && Truthful(w, cache.Now())
    ensures hit.Some? ==> Recompute(w, p).Success? && hit.value == EntryOf(w, Recompute(w, p).value)
  {
    var key := CacheKey(w, p);
    ghost var before := cache.Now();
    hit := cache.Get(key, now, blobGone);
    LookingAddsNothing(before, key, now);
    ReuseIsTruthful(w, before, cache.Now(), p, hit);
  }

  lemma ReuseIsTruthful(w: World, before: State, after: State, p: Pull, hit: Option<Entry>)
    requires Injective(w.hash) && InForce(w, p) && Truthful(w, before)
    requires forall k :: k in after.entries ==> k in before.entries && after.entries[k] == before.entries[k]
    requires hit.Some? ==> HashOf(w, p) in before.entries && hit.value == before.entries[HashOf(w, p)].entry
    ensures Truthful(w, after)
    ensures hit.Some? ==> Recompute(w, p).Success? && hit.value == EntryOf(w, Recompute(w, p).value)
  {
    FewerEntries(w, before, after);
    if hit.Some? {
      TruthfulHit(w, before, p);
    }
  }

  method Remember(w: World, cache: Cache, p: Pull, computed: Projected, now: int) returns (entry: Entry)
    requires InForce(w, p) && cache.Valid() && Truthful(w, cache.Now()) && Recompute(w, p) == Success(computed)
    modifies cache
    ensures cache.Valid() && Truthful(w, cache.Now()) && entry == EntryOf(w, computed)
  {
    StoreKeepsTruth(w, cache.Now(), p, now, cache.ttl, cache.max);
    var key := CacheKey(w, p);
    entry := EntryOf(w, computed);
    cache.Put(key, entry, now);
  }

  ghost function Expected(w: World, p: Pull): Result<Entry, PullError> {
    if p.user !in p.bundle.disabled then Failure(UserNotInPolicy)
    else match Recompute(w, p)
    case Success(x) => Success(EntryOf(w, x))
    case Failure(e) => Failure(e)
  }

  /** The part of handlePull between the subject and the result: reuse or recompute. The
      caller cannot tell which happened. */
  method Project(w: World, cache: Cache, p: Pull, now: int, blobGone: string -> bool) returns (r: Result<Entry, PullError>)
    requires Injective(w.hash) && Deployed(w, p) && cache.Valid() && Truthful(w, cache.Now())
    modifies cache
    ensures cache.Valid() && Truthful(w, cache.Now())
    ensures r == Expected(w, p)
    ensures r.Success? ==> exists patch :: Describes(w, p, r.value, patch)
  {
    if p.user !in p.bundle.disabled {
      return Failure(UserNotInPolicy);
    }
    if Recompute(w, p).Success? { EntryDescribes(w, p); }
    var hit := Reuse(w, cache, p, now, blobGone);
    if hit.Some? {
      return Success(hit.value);
    }
    var computed := Filter(w, p);
    if computed.Failure? {
      return Failure(computed.error);
    }
    var entry := Remember(w, cache, p, computed.value, now);
    r := Success(entry);
  }

  /** filterForReader. */
  method Filter(w: World, p: Pull) returns (r: Result<Projected, PullError>)
    requires Deployed(w, p)
    ensures r == Recompute(w, p)
  {
    var raw := w.diff(p.remote, p.from, p.to);
    if Blank(raw) {
      return Success(Projected("", 0, 0, 0));
    }
    var parsed := Parse(w.parse, raw);
    if parsed.Failure? {
      if parsed.error.Empty? {
        return Success(Projected("", 0, 0, 0));
      }
      return Failure(BadPatch(parsed.error));
    }
    if p.user !in p.bundle.disabled {
      return Failure(UserNotInPolicy);
    }
    ParsedIsNumbered(w.parse, raw);
    var result := Enforce.Pull(OptionsOf(w, p), parsed.value);
    var out := result.value;
    r := Success(Projected(out.patch, |out.verdicts|, |out.kept|, |out.dropped|));
  }
}
