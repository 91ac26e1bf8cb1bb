/** Comparing two bundles by the rules as they reach each person. */
module BundleDiff {
  import opened Policy
  import opened Profile
  import opened RuleMeaning
  import opened Sorting

  datatype Grant = Grant(
    repo: string, action: Action, effect: Effect, path: string, ref: string, ruleId: string, via: string)

  datatype Change = Change(
    user: string,
    allowed: seq<Grant>, denied: seq<Grant>,
    noLongerAllowed: seq<Grant>, noLongerDenied: seq<Grant>)

  datatype Diff = Diff(
    usersAdded: seq<string>, usersRemoved: seq<string>,
    reposAdded: seq<string>, reposRemoved: seq<string>,
    changes: seq<Change>)

  predicate Widens(c: Change) {
    c.allowed != [] || c.noLongerDenied != []
  }

  predicate Narrows(c: Change) {
    c.denied != [] || c.noLongerAllowed != []
  }

  function EffectText(e: Effect): string {
    match e
    case Allow => "allow"
    case Deny => "deny"
  }

  // ---------------------------------------------------------------- keys

  const NUL: char := '\0'

  predicate NoNul(s: string) {
    NUL !in s
  }

  function Join(parts: seq<string>): string
    requires parts != []
  {
    if |parts| == 1 then parts[0] else parts[0] + [NUL] + Join(parts[1..])
  }

  function Fields(g: Grant): seq<string> {
    [g.repo, ActionText(g.action), EffectText(g.effect), g.path, g.ref, g.ruleId, g.via]
  }

  function Key(g: Grant): string {
    Join(Fields(g))
  }

  lemma {:induction false} JoinInjective(a: seq<string>, b: seq<string>)
    requires |a| == |b| > 0 && Join(a) == Join(b)
    requires forall s :: s in a || s in b ==> NoNul(s)
    ensures a == b
  {
    assert a[0] in a && b[0] in b;
    if |a| > 1 {
      var s, x, y := Join(a), Join(a[1..]), Join(b[1..]);
      assert s[|a[0]|] == NUL && s[|b[0]|] == NUL;
      assert forall k :: 0 <= k < |a[0]| ==> s[k] == a[0][k];
      assert forall k :: 0 <= k < |b[0]| ==> s[k] == b[0][k];
      assert |a[0]| == |b[0]|;
      assert a[0] == s[..|a[0]|] == b[0];
      assert x == s[|a[0]| + 1..] == y;
      JoinInjective(a[1..], b[1..]);
      assert a == [a[0]] + a[1..] && b == [b[0]] + b[1..];
    } else {
      assert a == [a[0]] && b == [b[0]];
    }
  }

  ghost predicate PlainGrant(g: Grant) {
    NoNul(g.repo) && NoNul(g.path) && NoNul(g.ref) && NoNul(g.ruleId) && NoNul(g.via)
  }

  lemma KeyInjective(g: Grant, h: Grant)
    requires PlainGrant(g) && PlainGrant(h) && Key(g) == Key(h)
    ensures g == h
  {
    JoinInjective(Fields(g), Fields(h));
    assert Fields(g)[0] == Fields(h)[0] && Fields(g)[1] == Fields(h)[1] && Fields(g)[2] == Fields(h)[2]
        && Fields(g)[3] == Fields(h)[3] && Fields(g)[4] == Fields(h)[4] && Fields(g)[5] == Fields(h)[5]
        && Fields(g)[6] == Fields(h)[6];
    ActionTextInjective(g.action, h.action);
    assert "allow"[0] == 'a' && "deny"[0] == 'd';
  }

  // ---------------------------------------------------------------- grants

  function Attribution(r: Rule): string {
    match r.subject
    case TheUser(_) => ""
    case TheGroup(id) => id
    case AnyOne => "any"
  }

  /** The ref texts of a rule's grants: "" when the rule names no ref. */
  function RefTexts(refs: seq<Pattern>): (texts: seq<string>)
    ensures refs == [] ==> texts == [""]
    ensures refs != [] ==> forall x :: x in texts <==> Pattern(x) in refs
  {
    if refs == [] then [""] else Texts(refs)
  }

  function Texts(ps: seq<Pattern>): (texts: seq<string>)
    ensures forall x :: x in texts <==> Pattern(x) in ps
  {
    if ps == [] then [] else [ps[0].raw] + Texts(ps[1..])
  }

  function RuleGrant(repo: string, r: Rule, action: Action, path: string, ref: string): Grant {
    Grant(repo, action, r.effect, path, ref, r.id, Attribution(r))
  }

  /** A grant of this rule over these of its actions, paths and refs. */
  predicate Says(repo: string, r: Rule, actions: seq<Action>, paths: seq<Pattern>, refs: seq<string>, g: Grant) {
    && g == RuleGrant(repo, r, g.action, g.path, g.ref)
    && g.action in actions && Pattern(g.path) in paths && g.ref in refs
  }

  predicate FromRule(repo: string, r: Rule, g: Grant) {
    Says(repo, r, r.actions, r.paths, RefTexts(r.refs), g)
  }

  /** A grant that reaches the user: some rule of the bundle says it to them. */
  ghost predicate IsGrant(b: Bundle, user: string, g: Grant) {
    user in b.disabled && g.repo in b.repos && exists r :: Sayer(b, user, g, r)
  }

  ghost predicate Sayer(b: Bundle, user: string, g: Grant, r: Rule) {
    r in RulesOf(b, g.repo) && MatchesSubject(r, SubjectOf(b, user)) && FromRule(g.repo, r, g)
  }

  /** `out'` is `out` with those grants entered under their keys. */
  ghost predicate Added(out: map<string, Grant>, out': map<string, Grant>, repo: string, r: Rule,
                        actions: seq<Action>, paths: seq<Pattern>, refs: seq<string>) {
    && (forall k :: k in out' ==>
          (Says(repo, r, actions, paths, refs, out'[k]) && Key(out'[k]) == k) || (k in out && out'[k] == out[k]))
    && out.Keys <= out'.Keys
    && (forall g :: Says(repo, r, actions, paths, refs, g) ==> Key(g) in out'.Keys)
  }

  method AddRule(out: map<string, Grant>, repo: string, r: Rule) returns (out': map<string, Grant>)
    ensures Added(out, out', repo, r, r.actions, r.paths, RefTexts(r.refs))
  {
    out' := out;
    var refs := RefTexts(r.refs);
    for i := 0 to |r.actions|
      invariant Added(out, out', repo, r, r.actions[..i], r.paths, refs)
    {
      ghost var before := out';
      out' := AddAction(out', repo, r, r.actions[i], refs);
      assert r.actions[..i + 1] == r.actions[..i] + [r.actions[i]];
      AddedUnion(out, before, out', repo, r, r.actions[..i], r.actions[i], r.paths, refs);
    }
    assert r.actions[..|r.actions|] == r.actions;
  }

  lemma AddedUnion(a: map<string, Grant>, b: map<string, Grant>, c: map<string, Grant>, repo: string, r: Rule,
                   actions: seq<Action>, action: Action, paths: seq<Pattern>, refs: seq<string>)
    requires Added(a, b, repo, r, actions, paths, refs) && Added(b, c, repo, r, [action], paths, refs)
    ensures Added(a, c, repo, r, actions + [action], paths, refs)
  {
    forall g | Says(repo, r, actions + [action], paths, refs, g) ensures Key(g) in c.Keys {
      assert Says(repo, r, actions, paths, refs, g) || Says(repo, r, [action], paths, refs, g);
    }
  }

  /** The paths and refs of a rule, for one action. */
  method AddAction(out: map<string, Grant>, repo: string, r: Rule, action: Action, refs: seq<string>) returns (out': map<string, Grant>)
    ensures Added(out, out', repo, r, [action], r.paths, refs)
  {
    out' := out;
    for j := 0 to |r.paths|
      invariant Added(out, out', repo, r, [action], r.paths[..j], refs)
    {
      ghost var before := out';
      out' := AddPath(out', repo, r, action, r.paths[j], refs);
      assert r.paths[..j + 1] == r.paths[..j] + [r.paths[j]];
      AddedUnionPath(out, before, out', repo, r, action, r.paths[..j], r.paths[j], refs);
    }
    assert r.paths[..|r.paths|] == r.paths;
  }

  lemma AddedUnionPath(a: map<string, Grant>, b: map<string, Grant>, c: map<string, Grant>, repo: string, r: Rule,
                       action: Action, paths: seq<Pattern>, path: Pattern, refs: seq<string>)
    requires Added(a, b, repo, r, [action], paths, refs) && Added(b, c, repo, r, [action], [path], refs)
    ensures Added(a, c, repo, r, [action], paths + [path], refs)
  {
    forall g | Says(repo, r, [action], paths + [path], refs, g) ensures Key(g) in c.Keys {
      assert Says(repo, r, [action], paths, refs, g) || Says(repo, r, [action], [path], refs, g);
    }
  }

  method AddPath(out: map<string, Grant>, repo: string, r: Rule, action: Action, path: Pattern, refs: seq<string>) returns (out': map<string, Grant>)
    ensures Added(out, out', repo, r, [action], [path], refs)
  {
    out' := out;
    for k := 0 to |refs|
      invariant Added(out, out', repo, r, [action], [path], refs[..k])
    {
      var grant := RuleGrant(repo, r, action, path.raw, refs[k]);
      assert refs[..k + 1] == refs[..k] + [refs[k]];
      AddedRef(out, out', repo, r, action, path, refs[..k], refs[k]);
      out' := out'[Key(grant) := grant];
    }
    assert refs[..|refs|] == refs;
  }

  lemma AddedRef(a: map<string, Grant>, b: map<string, Grant>, repo: string, r: Rule,
                 action: Action, path: Pattern, refs: seq<string>, ref: string)
    requires Added(a, b, repo, r, [action], [path], refs)
    ensures var grant := RuleGrant(repo, r, action, path.raw, ref);
      Added(a, b[Key(grant) := grant], repo, r, [action], [path], refs + [ref])
  {
    var grant := RuleGrant(repo, r, action, path.raw, ref);
    forall g | Says(repo, r, [action], [path], refs + [ref], g) ensures Key(g) in b[Key(grant) := grant].Keys {
      assert Says(repo, r, [action], [path], refs, g) || g == grant;
    }
  }

  // ---------------------------------------------------------------- the grants of one person

  ghost predicate Keyed(b: Bundle, user: string, out: map<string, Grant>) {
    forall k :: k in out ==> IsGrant(b, user, out[k]) && Key(out[k]) == k
  }

  /** Exactly the user's grants, each under its key. */
  ghost predicate GrantMap(b: Bundle, user: string, out: map<string, Grant>) {
    Keyed(b, user, out) && forall g :: IsGrant(b, user, g) ==> Key(g) in out.Keys
  }

  /** grantsFor: every rule of every repository that reaches the user. */
  method GrantsFor(b: Bundle, user: string) returns (out: map<string, Grant>)
    ensures GrantMap(b, user, out)
  {
    out := map[];
    if user !in b.disabled {
      return;
    }
    var repos := SortIds(b.repos);
    for i := 0 to |repos|
      invariant Keyed(b, user, out)
      invariant forall g :: IsGrant(b, user, g) && g.repo in repos[..i] ==> Key(g) in out.Keys
    {
      assert repos[i] in b.repos;
      out := AddRepo(b, user, repos[i], out);
      assert repos[..i + 1] == repos[..i] + [repos[i]];
    }
    assert repos[..|repos|] == repos;
  }

  lemma RuleKeepsKeyed(b: Bundle, user: string, repo: string, r: Rule, before: map<string, Grant>, after: map<string, Grant>)
    requires user in b.disabled && repo in b.repos && r in RulesOf(b, repo) && MatchesSubject(r, SubjectOf(b, user))
    requires Keyed(b, user, before) && Added(before, after, repo, r, r.actions, r.paths, RefTexts(r.refs))
    ensures Keyed(b, user, after)
  {
    forall k | k in after ensures IsGrant(b, user, after[k]) && Key(after[k]) == k {
      if !(k in before && after[k] == before[k]) {
        assert Sayer(b, user, after[k], r);
      }
    }
  }

  method AddRepo(b: Bundle, user: string, repo: string, out: map<string, Grant>) returns (out': map<string, Grant>)
    requires user in b.disabled && repo in b.repos && Keyed(b, user, out)
    ensures Keyed(b, user, out') && out.Keys <= out'.Keys
    ensures forall g :: IsGrant(b, user, g) && g.repo == repo ==> Key(g) in out'.Keys
  {
    out' := out;
    var rules, subject := RulesOf(b, repo), SubjectOf(b, user);
    for j := 0 to |rules|
      invariant Keyed(b, user, out') && out.Keys <= out'.Keys
      invariant forall i, g :: 0 <= i < j && MatchesSubject(rules[i], subject) && FromRule(repo, rules[i], g) ==> Key(g) in out'.Keys
    {
      if !MatchesSubject(rules[j], subject) {
        continue;
      }
      ghost var before := out';
      out' := AddRule(out', repo, rules[j]);
      RuleKeepsKeyed(b, user, repo, rules[j], before, out');
    }
    forall g | IsGrant(b, user, g) && g.repo == repo ensures Key(g) in out'.Keys {
      var r :| Sayer(b, user, g, r);
      var i :| 0 <= i < |rules| && rules[i] == r;
    }
  }

  // ---------------------------------------------------------------- comparing

  /** The texts and ids of a bundle carry no NUL, so keys tell grants apart. */
  ghost predicate Plain(b: Bundle) {
    && (forall repo :: repo in b.repos ==> NoNul(repo))
    && (forall repo, r :: repo in b.repos && r in RulesOf(b, repo) ==> PlainRule(r))
  }

  ghost predicate PlainRule(r: Rule) {
    && NoNul(r.id) && NoNul(Attribution(r))
    && (forall p :: p in r.paths ==> NoNul(p.raw))
    && (forall p :: p in r.refs ==> NoNul(p.raw) && p.raw != "")
  }

  lemma PlainGrants(b: Bundle, user: string, g: Grant)
    requires Plain(b) && IsGrant(b, user, g)
    ensures PlainGrant(g)
  {
    var r :| Sayer(b, user, g, r);
    assert PlainRule(r);
    assert NoNul(Pattern(g.path).raw);
    if r.refs != [] { assert Pattern(g.ref) in r.refs; }
  }

  /** `b` gives the user a grant of this effect that `a` does not. */
  ghost predicate Gains(a: Bundle, b: Bundle, user: string, effect: Effect) {
    exists g :: Gained(a, b, user, effect, g)
  }

  ghost predicate Gained(a: Bundle, b: Bundle, user: string, effect: Effect, g: Grant) {
    IsGrant(b, user, g) && g.effect == effect && !IsGrant(a, user, g)
  }

  ghost predicate OnlyIn(from: map<string, Grant>, other: map<string, Grant>, effect: Effect, k: string) {
    k in from && k !in other && from[k].effect == effect
  }

  /** In the order of their keys, each once. */
  ghost predicate ByKey(gs: seq<Grant>) {
    forall i, j :: 0 <= i < j < |gs| ==> Less(Key(gs[i]), Key(gs[j]))
  }

  /** What is in one map and not the other, split by effect, in key order. Walking the
      keys in order gives the list that collecting in any order and sorting does. */
  method Missing(from: map<string, Grant>, other: map<string, Grant>) returns (allows: seq<Grant>, denies: seq<Grant>)
    requires forall k :: k in from ==> Key(from[k]) == k
    ensures forall g :: g in allows <==> exists k :: OnlyIn(from, other, Allow, k) && from[k] == g
    ensures forall g :: g in denies <==> exists k :: OnlyIn(from, other, Deny, k) && from[k] == g
    ensures ByKey(allows) && ByKey(denies)
  {
    allows, denies := [], [];
    var keys := SortIds(from.Keys);
    for n := 0 to |keys|
      invariant Picked(from, other, Allow, keys, n, allows)
      invariant Picked(from, other, Deny, keys, n, denies)
    {
      var k := keys[n];
      assert k in keys;
      var grant := from[k];
      if k !in other {
        if grant.effect == Deny {
          PickOne(from, other, Deny, keys, n, denies);
          PassOver(from, other, Allow, keys, n, allows);
          denies := denies + [grant];
        } else {
          PickOne(from, other, Allow, keys, n, allows);
          PassOver(from, other, Deny, keys, n, denies);
          allows := allows + [grant];
        }
      } else {
        PassOver(from, other, Allow, keys, n, allows);
        PassOver(from, other, Deny, keys, n, denies);
      }
    }
    PickedAll(from, other, Allow, keys, allows);
    PickedAll(from, other, Deny, keys, denies);
  }

  /** `gs` is what the first n keys contribute, in key order. */
  ghost predicate Picked(from: map<string, Grant>, other: map<string, Grant>, effect: Effect, keys: seq<string>, n: nat, gs: seq<Grant>) {
    && n <= |keys|
    && (forall g :: g in gs ==> OnlyIn(from, other, effect, Key(g)) && from[Key(g)] == g)
    && (forall i :: 0 <= i < n && OnlyIn(from, other, effect, keys[i]) ==> from[keys[i]] in gs)
    && (forall i :: 0 <= i < |gs| ==> exists j :: 0 <= j < n && keys[j] == Key(gs[i]))
    && ByKey(gs)
  }

  lemma PassOver(from: map<string, Grant>, other: map<string, Grant>, effect: Effect, keys: seq<string>, n: nat, gs: seq<Grant>)
    requires n < |keys| && Picked(from, other, effect, keys, n, gs) && !OnlyIn(from, other, effect, keys[n])
    ensures Picked(from, other, effect, keys, n + 1, gs)
  {
  }

  lemma PickOne(from: map<string, Grant>, other: map<string, Grant>, effect: Effect, keys: seq<string>, n: nat, gs: seq<Grant>)
    requires n < |keys| && Ascending(keys) && Picked(from, other, effect, keys, n, gs)
    requires OnlyIn(from, other, effect, keys[n]) && Key(from[keys[n]]) == keys[n]
    ensures Picked(from, other, effect, keys, n + 1, gs + [from[keys[n]]])
  {
    var gs' := gs + [from[keys[n]]];
    forall i, j | 0 <= i < j < |gs'| ensures Less(Key(gs'[i]), Key(gs'[j])) {
      if j == |gs| {
        var k :| 0 <= k < n && keys[k] == Key(gs[i]);
        assert Less(keys[k], keys[n]);
      }
    }
    forall i | 0 <= i < |gs'| ensures exists j :: 0 <= j < n + 1 && keys[j] == Key(gs'[i]) {
      if i < |gs| {
        var k :| 0 <= k < n && keys[k] == Key(gs[i]);
      } else {
        assert keys[n] == Key(gs'[i]);
      }
    }
  }

  lemma PickedAll(from: map<string, Grant>, other: map<string, Grant>, effect: Effect, keys: seq<string>, gs: seq<Grant>)
    requires Picked(from, other, effect, keys, |keys|, gs) && forall k :: k in from ==> k in keys
    ensures forall g :: g in gs <==> exists k :: OnlyIn(from, other, effect, k) && from[k] == g
  {
    forall k | OnlyIn(from, other, effect, k) ensures from[k] in gs {
      assert k in keys;
      var i :| 0 <= i < |keys| && keys[i] == k;
    }
  }

  /** Under the two maps' keys, what is missing is what was gained. */
  lemma MissingIsGained(a: Bundle, b: Bundle, user: string, effect: Effect, was: map<string, Grant>, now: map<string, Grant>, g: Grant)
    requires Plain(a) && Plain(b) && GrantMap(a, user, was) && GrantMap(b, user, now)
    ensures Gained(a, b, user, effect, g) <==> exists k :: OnlyIn(now, was, effect, k) && now[k] == g
  {
    var k := Key(g);
    if IsGrant(b, user, g) {
      PlainGrants(b, user, g);
      PlainGrants(b, user, now[k]);
      KeyInjective(g, now[k]);
      if k in was {
        PlainGrants(a, user, was[k]);
        KeyInjective(g, was[k]);
      }
    }
    if Gained(a, b, user, effect, g) {
      assert OnlyIn(now, was, effect, k);
    }
  }

  /** The change reported for one user holds exactly the grants that moved. */
  ghost predicate ChangeFor(before: Bundle, after: Bundle, user: string, c: Change) {
    && c.user == user
    && (forall g :: g in c.allowed <==> Gained(before, after, user, Allow, g))
    && (forall g :: g in c.denied <==> Gained(before, after, user, Deny, g))
    && (forall g :: g in c.noLongerAllowed <==> Gained(after, before, user, Allow, g))
    && (forall g :: g in c.noLongerDenied <==> Gained(after, before, user, Deny, g))
  }

  ghost predicate InOrder(c: Change) {
    ByKey(c.allowed) && ByKey(c.denied) && ByKey(c.noLongerAllowed) && ByKey(c.noLongerDenied)
  }

  method CompareUser(before: Bundle, after: Bundle, user: string) returns (c: Change)
    ensures c.user == user && InOrder(c)
    ensures Plain(before) && Plain(after) ==> ChangeFor(before, after, user, c)
  {
    var was := GrantsFor(before, user);
    var now := GrantsFor(after, user);
    var allowed, denied := Missing(now, was);
    var noLongerAllowed, noLongerDenied := Missing(was, now);
    c := Change(user, allowed, denied, noLongerAllowed, noLongerDenied);
    if Plain(before) && Plain(after) {
      forall g ensures
        && (g in allowed <==> Gained(before, after, user, Allow, g))
        && (g in denied <==> Gained(before, after, user, Deny, g))
      {
        MissingIsGained(before, after, user, Allow, was, now, g);
        MissingIsGained(before, after, user, Deny, was, now, g);
      }
      forall g ensures
        && (g in noLongerAllowed <==> Gained(after, before, user, Allow, g))
        && (g in noLongerDenied <==> Gained(after, before, user, Deny, g))
      {
        MissingIsGained(after, before, user, Allow, now, was, g);
        MissingIsGained(after, before, user, Deny, now, was, g);
      }
    }
  }

  predicate Moves(c: Change) {
    Widens(c) || Narrows(c)
  }

  /** The report: a change for each user of both bundles whose grants moved, by user id. */
  ghost predicate Reports(before: Bundle, after: Bundle, d: Diff) {
    && (forall i :: 0 <= i < |d.changes| ==>
          && d.changes[i].user in before.disabled && d.changes[i].user in after.disabled
          && Moves(d.changes[i]) && InOrder(d.changes[i]) && ChangeFor(before, after, d.changes[i].user, d.changes[i]))
    && (forall u :: u in before.disabled && u in after.disabled && !Reported(d, u) ==> Unmoved(before, after, u))
    && (forall i, j :: 0 <= i < j < |d.changes| ==> Less(d.changes[i].user, d.changes[j].user))
  }

  ghost predicate Reported(d: Diff, u: string) {
    exists i :: 0 <= i < |d.changes| && d.changes[i].user == u
  }

  ghost predicate Unmoved(a: Bundle, b: Bundle, u: string) {
    forall g :: IsGrant(a, u, g) <==> IsGrant(b, u, g)
  }

  method Outside(a: set<string>, b: set<string>) returns (ids: seq<string>)
    ensures Ascending(ids) && forall x :: x in ids <==> x in a && x !in b
  {
    ids := SortIds(a - b);
  }

  lemma StillMeansUnmoved(before: Bundle, after: Bundle, u: string, c: Change)
    requires ChangeFor(before, after, u, c) && !Moves(c)
    ensures Unmoved(before, after, u)
  {
    forall g ensures IsGrant(before, u, g) <==> IsGrant(after, u, g) {
      assert g !in c.allowed && g !in c.denied && g !in c.noLongerAllowed && g !in c.noLongerDenied;
      var _ := Gained(before, after, u, g.effect, g);
      var _ := Gained(after, before, u, g.effect, g);
    }
  }

  /** Compare. */
  method Compare(before: Bundle, after: Bundle) returns (d: Diff)
    ensures forall u :: u in d.usersAdded <==> u in after.disabled && u !in before.disabled
    ensures forall u :: u in d.usersRemoved <==> u in before.disabled && u !in after.disabled
    ensures forall r :: r in d.reposAdded <==> r in after.repos && r !in before.repos
    ensures forall r :: r in d.reposRemoved <==> r in before.repos && r !in after.repos
    ensures Ascending(d.usersAdded) && Ascending(d.usersRemoved) && Ascending(d.reposAdded) && Ascending(d.reposRemoved)
    ensures Plain(before) && Plain(after) ==> Reports(before, after, d)
  {
    var usersAdded := Outside(after.disabled.Keys, before.disabled.Keys);
    var usersRemoved := Outside(before.disabled.Keys, after.disabled.Keys);
    var reposAdded := Outside(after.repos, before.repos);
    var reposRemoved := Outside(before.repos, after.repos);
    var users := SortIds(after.disabled.Keys);
    var changes := CompareAll(before, after, users);
    d := Diff(usersAdded, usersRemoved, reposAdded, reposRemoved, changes);
    if Plain(before) && Plain(after) {
      forall u | u in before.disabled && u in after.disabled && !Reported(d, u) ensures Unmoved(before, after, u) {
        assert u in users;
        var k :| 0 <= k < |users| && users[k] == u;
        assert ListedOrStill(before, after, users, changes, k);
      }
    }
  }

  ghost predicate ListedOrStill(before: Bundle, after: Bundle, users: seq<string>, changes: seq<Change>, k: int)
    requires 0 <= k < |users|
  {
    users[k] in before.disabled ==>
      (exists i :: 0 <= i < |changes| && changes[i].user == users[k]) || Unmoved(before, after, users[k])
  }

  method CompareAll(before: Bundle, after: Bundle, users: seq<string>) returns (changes: seq<Change>)
    requires Ascending(users) && forall u :: u in users ==> u in after.disabled
    ensures forall i, j :: 0 <= i < j < |changes| ==> Less(changes[i].user, changes[j].user)
    ensures forall i :: 0 <= i < |changes| ==>
      changes[i].user in users && changes[i].user in before.disabled && Moves(changes[i]) && InOrder(changes[i])
    ensures Plain(before) && Plain(after) ==> forall i :: 0 <= i < |changes| ==>
      ChangeFor(before, after, changes[i].user, changes[i])
    ensures Plain(before) && Plain(after) ==> forall k :: 0 <= k < |users| ==> ListedOrStill(before, after, users, changes, k)
  {
    changes := [];
    ghost var plain := Plain(before) && Plain(after);
    for n := 0 to |users|
      invariant forall i, j :: 0 <= i < j < |changes| ==> Less(changes[i].user, changes[j].user)
      invariant forall i :: 0 <= i < |changes| ==>
        changes[i].user in users[..n] && changes[i].user in before.disabled && Moves(changes[i]) && InOrder(changes[i])
      invariant plain ==> forall i :: 0 <= i < |changes| ==> ChangeFor(before, after, changes[i].user, changes[i])
      invariant plain ==> forall k :: 0 <= k < n ==> ListedOrStill(before, after, users, changes, k)
    {
      assert users[..n + 1] == users[..n] + [users[n]];
      if users[n] !in before.disabled {
        continue;
      }
      var c := CompareUser(before, after, users[n]);
      if !Widens(c) && !Narrows(c) {
        if plain {
          StillMeansUnmoved(before, after, users[n], c);
        }
        continue;
      }
      ghost var earlier := changes;
      changes := changes + [c];
      forall k | 0 <= k < n && plain ensures ListedOrStill(before, after, users, changes, k) {
        assert ListedOrStill(before, after, users, earlier, k);
        if i :| 0 <= i < |earlier| && earlier[i].user == users[k] {
          assert changes[i].user == users[k];
        }
      }
      assert changes[|earlier|].user == users[n];
    }
  }

  // ---------------------------------------------------------------- what a report guarantees

  function Ask(b: Bundle, user: string, repo: string, ref: string, path: string, action: Action): Request {
    Request(repo, ref, SubjectOf(b, user), path, action)
  }

  /** The rule gives the user this grant: it is theirs and exempts them not, names the
      action, the path and the ref, and reaches them the way the grant says. */
  ghost predicate GivenBy(b: Bundle, user: string, g: Grant, r: Rule) {
    var subject := Subject(user, if user in b.memberships then b.memberships[user] else []);
    && g.repo in b.rules && r in b.rules[g.repo] && r.id == g.ruleId && r.effect == g.effect
    && IsFor(r.subject, subject) && !Exempt(r, subject)
    && g.action in r.actions && Pattern(g.path) in r.paths
    && (if r.refs == [] then g.ref == "" else Pattern(g.ref) in r.refs)
    && (r.subject.TheUser? ==> g.via == "") && (r.subject.TheGroup? ==> g.via == r.subject.id) && (r.subject.AnyOne? ==> g.via == "any")
  }

  /** What a grant in the report means. */
  lemma GrantMeans(b: Bundle, user: string, g: Grant)
    ensures IsGrant(b, user, g) <==> user in b.disabled && g.repo in b.repos && exists r :: GivenBy(b, user, g, r)
  {
    var subject := SubjectOf(b, user);
    forall r ensures Sayer(b, user, g, r) <==> GivenBy(b, user, g, r) {
      SubjectMeans(r, subject);
    }
  }

  /** The grant behind a rule that applies, on the patterns that matched. */
  lemma GrantBehind(g: Glob, b: Bundle, user: string, req: Request, effect: Effect) returns (grant: Grant)
    requires user in b.disabled && req.repo in b.repos && req.subject == SubjectOf(b, user)
    requires SomeRule(g, RulesOf(b, req.repo), req, effect)
    ensures IsGrant(b, user, grant) && Carries(g, grant, req) && grant.effect == effect
  {
    var r :| r in RulesOf(b, req.repo) && r.effect == effect && Applies(g, r, req);
    var path := FirstMatch(g, r.paths, req.path).value;
    var ref := "";
    if r.refs != [] {
      var p :| p in r.refs && Match(g, p, req.ref);
      ref := p.raw;
      assert Pattern(ref) == p;
    }
    grant := RuleGrant(req.repo, r, req.action, path.raw, ref);
    assert Pattern(path.raw) == path;
    assert Sayer(b, user, grant, r);
  }

  /** The grant covers the request: same repository and action, matching path and ref. */
  ghost predicate Carries(g: Glob, grant: Grant, req: Request) {
    && grant.repo == req.repo && grant.action == req.action
    && Match(g, Pattern(grant.path), req.path)
    && (grant.ref != "" ==> req.ref != "" && Match(g, Pattern(grant.ref), req.ref))
  }

  lemma GrantApplies(g: Glob, b: Bundle, user: string, req: Request, grant: Grant)
    requires Plain(b) && IsGrant(b, user, grant) && Carries(g, grant, req) && req.subject == SubjectOf(b, user)
    ensures SomeRule(g, RulesOf(b, req.repo), req, grant.effect)
  {
    var r :| Sayer(b, user, grant, r);
    assert PlainRule(r);
    if r.refs != [] {
      assert Pattern(grant.ref) in r.refs;
    }
    assert Applies(g, r, req);
  }

  /** Not reported as widening: gained no allow and lost no deny. */
  ghost predicate NotWidening(before: Bundle, after: Bundle, user: string) {
    !Gains(before, after, user, Allow) && !Gains(after, before, user, Deny)
  }

  /** A change that does not widen, and the absence of a change, both mean so. */
  lemma ReportReadsBack(before: Bundle, after: Bundle, d: Diff, user: string)
    requires Reports(before, after, d) && user in before.disabled && user in after.disabled
    ensures NotWidening(before, after, user) <==>
      forall i :: 0 <= i < |d.changes| && d.changes[i].user == user ==> !Widens(d.changes[i])
  {
    if Reported(d, user) {
      var i :| 0 <= i < |d.changes| && d.changes[i].user == user;
      var c := d.changes[i];
      LessTotal(user, user);
      assert forall j :: 0 <= j < |d.changes| && d.changes[j].user == user ==> j == i;
      if c.allowed != [] { assert Gained(before, after, user, Allow, c.allowed[0]); }
      if c.noLongerDenied != [] { assert Gained(after, before, user, Deny, c.noLongerDenied[0]); }
    } else {
      assert Unmoved(before, after, user);
    }
  }

  /** Comparing is sound: whoever is not reported as widening, and was not re-enabled,
      can do nothing after that they could not do before. */
  lemma CompareIsSound(g: Glob, before: Bundle, after: Bundle, user: string,
                       repo: string, ref: string, path: string, action: Action)
    requires Plain(before) && Plain(after) && user in before.disabled && user in after.disabled
    requires NotWidening(before, after, user)
    requires IsDisabled(before, user) ==> IsDisabled(after, user)
    ensures Granted(g, after, Ask(after, user, repo, ref, path, action))
        ==> Granted(g, before, Ask(before, user, repo, ref, path, action))
  {
    var was, now := Ask(before, user, repo, ref, path, action), Ask(after, user, repo, ref, path, action);
    if Granted(g, after, now) {
      var grant := GrantBehind(g, after, user, now, Allow);
      assert !Gained(before, after, user, Allow, grant);
      GrantApplies(g, before, user, was, grant);
      if SomeRule(g, RulesOf(before, repo), was, Deny) {
        var deny := GrantBehind(g, before, user, was, Deny);
        assert !Gained(after, before, user, Deny, deny);
        GrantApplies(g, after, user, now, deny);
      }
    }
  }

  lemma UnmovedRules(g: Glob, a: Bundle, b: Bundle, user: string,
                     repo: string, ref: string, path: string, action: Action, effect: Effect)
    requires Plain(a) && Plain(b) && user in a.disabled && repo in a.repos && Unmoved(a, b, user)
    ensures SomeRule(g, RulesOf(a, repo), Ask(a, user, repo, ref, path, action), effect)
        ==> SomeRule(g, RulesOf(b, repo), Ask(b, user, repo, ref, path, action), effect)
  {
    var was, now := Ask(a, user, repo, ref, path, action), Ask(b, user, repo, ref, path, action);
    if SomeRule(g, RulesOf(a, repo), was, effect) {
      var grant := GrantBehind(g, a, user, was, effect);
      GrantApplies(g, b, user, now, grant);
    }
  }

  /** With nothing reported and the account's flag unchanged, every outcome and every
      reason agrees, on every request for a repository both bundles know. */
  lemma SilenceMeansSame(g: Glob, before: Bundle, after: Bundle, user: string,
                         repo: string, ref: string, path: string, action: Action)
    requires Plain(before) && Plain(after) && user in before.disabled && user in after.disabled
    requires Unmoved(before, after, user) && IsDisabled(before, user) == IsDisabled(after, user)
    requires repo in before.repos && repo in after.repos
    ensures var d, d' := Decide(g, before, Ask(before, user, repo, ref, path, action)),
                         Decide(g, after, Ask(after, user, repo, ref, path, action));
      d.allowed == d'.allowed && d.effect == d'.effect && d.reason == d'.reason
  {
    DecideIsDeclarative(g, before, Ask(before, user, repo, ref, path, action));
    DecideIsDeclarative(g, after, Ask(after, user, repo, ref, path, action));
    UnmovedRules(g, before, after, user, repo, ref, path, action, Allow);
    UnmovedRules(g, before, after, user, repo, ref, path, action, Deny);
    UnmovedRules(g, after, before, user, repo, ref, path, action, Allow);
    UnmovedRules(g, after, before, user, repo, ref, path, action, Deny);
  }

  /** Everything the user may do after, they might do before. */
  ghost predicate NothingNew(g: Glob, before: Bundle, after: Bundle, user: string) {
    forall repo, ref, path, action ::
      Granted(g, after, Ask(after, user, repo, ref, path, action)) ==> Granted(g, before, Ask(before, user, repo, ref, path, action))
  }

  ghost predicate MayNothing(g: Glob, b: Bundle, user: string) {
    forall repo, ref, path, action :: !Granted(g, b, Ask(b, user, repo, ref, path, action))
  }

  /** And exactly then: for a user not reported as widening, nothing new is allowed if
      and only if the account was not re-enabled, or may do nothing anyway. */
  lemma SoundExactlyUnlessReenabled(g: Glob, before: Bundle, after: Bundle, user: string)
    requires Plain(before) && Plain(after) && user in before.disabled && user in after.disabled
    requires NotWidening(before, after, user)
    ensures NothingNew(g, before, after, user) <==>
      (IsDisabled(before, user) ==> IsDisabled(after, user)) || MayNothing(g, after, user)
  {
    if IsDisabled(before, user) ==> IsDisabled(after, user) {
      forall repo, ref, path, action | Granted(g, after, Ask(after, user, repo, ref, path, action))
        ensures Granted(g, before, Ask(before, user, repo, ref, path, action))
      {
        CompareIsSound(g, before, after, user, repo, ref, path, action);
      }
    } else if !MayNothing(g, after, user) {
      var repo, ref, path, action :| Granted(g, after, Ask(after, user, repo, ref, path, action));
      assert !Granted(g, before, Ask(before, user, repo, ref, path, action));
    }
  }

  /** The condition on the flag is needed: re-enabling an account moves no grant, so
      it is never reported, and it opens every request the account was allowed. */
  lemma ReenablingIsNotReported(g: Glob, after: Bundle, user: string, req: Request)
    requires user in after.disabled && Granted(g, after, req) && req.subject == SubjectOf(after, user)
    ensures var before := after.(disabled := after.disabled[user := true]);
      && Unmoved(before, after, user) && NotWidening(before, after, user)
      && !Granted(g, before, req)
  {
    var before := after.(disabled := after.disabled[user := true]);
    forall grant ensures IsGrant(before, user, grant) <==> IsGrant(after, user, grant) {
      forall r ensures Sayer(before, user, grant, r) <==> Sayer(after, user, grant, r) {
      }
    }
  }
}
