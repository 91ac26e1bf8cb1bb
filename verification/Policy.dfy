/** Rules, requests and decisions: the policy engine. Glob matching is a
    parameter, a function of the glob text and the path. */
module Policy {
  import opened Core

  type Glob = (string, string) -> bool

  datatype Action = Read | Write | Create | Delete | Admin

  datatype Effect = Allow | Deny

  datatype Reason = AllowedByRule | DeniedByRule | NoMatchingRule | UnknownRepository | UserDisabled

  /** A pattern as written; a trailing slash marks a subtree. */
  datatype Pattern = Pattern(raw: string)

  datatype RuleSubject = AnyOne | TheUser(id: string) | TheGroup(id: string)

  datatype Rule = Rule(
    id: string,
    subject: RuleSubject,
    except: seq<RuleSubject>,
    paths: seq<Pattern>,
    refs: seq<Pattern>,
    actions: seq<Action>,
    effect: Effect,
    description: string)

  datatype Subject = Subject(user: string, groups: seq<string>)

  datatype Bundle = Bundle(
    version: string,
    disabled: map<string, bool>,           // every user, and whether the account is disabled
    repos: set<string>,
    rules: map<string, seq<Rule>>,
    memberships: map<string, seq<string>>)

  datatype Request = Request(repo: string, ref: string, subject: Subject, path: string, action: Action)

  datatype Decision = Decision(
    allowed: bool,
    effect: Effect,
    reason: Reason,
    ruleId: string,
    pattern: string,
    description: string,
    version: string)

  // ---------------------------------------------------------------- patterns and rules

  predicate IsSubtree(p: Pattern) {
    p.raw != "" && p.raw[|p.raw| - 1] == '/'
  }

  function Dir(p: Pattern): string {
    if IsSubtree(p) then p.raw[..|p.raw| - 1] else ""
  }

  function GlobText(p: Pattern): string {
    if IsSubtree(p) then Dir(p) + "/**" else p.raw
  }

  predicate Match(g: Glob, p: Pattern, path: string) {
    && GlobText(p) != "" && path != ""
    && ((Dir(p) != "" && g(Dir(p), path)) || g(GlobText(p), path))
  }

  /** How far a glob goes before it first leaves something open. */
  function LiteralPrefix(s: string): nat {
    if s == "" || s[0] in {'*', '?', '[', '{'} then 0 else 1 + LiteralPrefix(s[1..])
  }

  function Specificity(p: Pattern): nat {
    LiteralPrefix(GlobText(p))
  }

  predicate Selects(rs: RuleSubject, s: Subject) {
    match rs
    case AnyOne => true
    case TheUser(id) => id == s.user
    case TheGroup(id) => id in s.groups
  }

  predicate MatchesSubject(r: Rule, s: Subject) {
    Selects(r.subject, s) && forall ex :: ex in r.except ==> !Selects(ex, s)
  }

  predicate MatchesRef(g: Glob, r: Rule, ref: string) {
    r.refs == [] || (ref != "" && exists p :: p in r.refs && Match(g, p, ref))
  }

  /** The first pattern that covers the path. */
  function FirstMatch(g: Glob, ps: seq<Pattern>, path: string): (m: Option<Pattern>)
    ensures m.Some? ==> m.value in ps && Match(g, m.value, path)
    ensures m.None? ==> forall p :: p in ps ==> !Match(g, p, path)
  {
    if ps == [] then None
    else if Match(g, ps[0], path) then Some(ps[0])
    else FirstMatch(g, ps[1..], path)
  }

  /** What of a rule depends on who asks, on which ref, and for what. */
  predicate Reaches(g: Glob, r: Rule, s: Subject, ref: string, a: Action) {
    a in r.actions && MatchesSubject(r, s) && MatchesRef(g, r, ref)
  }

  predicate Applies(g: Glob, r: Rule, req: Request) {
    Reaches(g, r, req.subject, req.ref, req.action) && FirstMatch(g, r.paths, req.path).Some?
  }

  function RulesOf(b: Bundle, repo: string): seq<Rule> {
    if repo in b.rules then b.rules[repo] else []
  }

  /** The subject a user of the bundle is, groups expanded. */
  function SubjectOf(b: Bundle, user: string): Subject {
    Subject(user, if user in b.memberships then b.memberships[user] else [])
  }

  predicate IsDisabled(b: Bundle, user: string) {
    user in b.disabled && b.disabled[user]
  }

  function Denied(reason: Reason, version: string): Decision {
    Decision(false, Deny, reason, "", "", "", version)
  }

  // ---------------------------------------------------------------- evaluation

  datatype Hit = Hit(rule: Rule, pattern: Pattern)

  function Best(g: Glob, rules: seq<Rule>, req: Request, effect: Effect): Option<Hit> {
    if rules == [] then None
    else
      Better(g, Best(g, rules[..|rules| - 1], req, effect), rules[|rules| - 1], req, effect)
  }

  function Better(g: Glob, best: Option<Hit>, r: Rule, req: Request, effect: Effect): Option<Hit> {
    if r.effect != effect || !Applies(g, r, req) then best
    else
      var pat := FirstMatch(g, r.paths, req.path).value;
      if best.None? || Specificity(pat) > Specificity(best.value.pattern) then Some(Hit(r, pat)) else best
  }

  function ByRule(h: Hit, version: string): Decision {
    var allowed := h.rule.effect == Allow;
    Decision(allowed, h.rule.effect, if allowed then AllowedByRule else DeniedByRule,
             h.rule.id, h.pattern.raw, h.rule.description, version)
  }

  function Decide(g: Glob, b: Bundle, req: Request): Decision {
    if req.repo !in b.repos then Denied(UnknownRepository, b.version)
    else if IsDisabled(b, req.subject.user) then Denied(UserDisabled, b.version)
    else
      var rules := RulesOf(b, req.repo);
      var deny, allow := Best(g, rules, req, Deny), Best(g, rules, req, Allow);
      if deny.Some? then ByRule(deny.value, b.version)
      else if allow.Some? then ByRule(allow.value, b.version)
      else Denied(NoMatchingRule, b.version)
  }

  /** Some rule of this effect applies. */
  predicate SomeRule(g: Glob, rules: seq<Rule>, req: Request, effect: Effect) {
    exists r :: r in rules && r.effect == effect && Applies(g, r, req)
  }

  /** The rule as the documentation states it: known repository, enabled user, some
      matching allow, no matching deny. */
  predicate Granted(g: Glob, b: Bundle, req: Request) {
    && req.repo in b.repos
    && !IsDisabled(b, req.subject.user)
    && SomeRule(g, RulesOf(b, req.repo), req, Allow)
    && !SomeRule(g, RulesOf(b, req.repo), req, Deny)
  }

  lemma {:induction false} BestExists(g: Glob, rules: seq<Rule>, req: Request, effect: Effect)
    ensures Best(g, rules, req, effect).Some? <==> SomeRule(g, rules, req, effect)
    ensures Best(g, rules, req, effect).Some? ==> Best(g, rules, req, effect).value.rule.effect == effect
  {
    if rules != [] {
      var front, r := rules[..|rules| - 1], rules[|rules| - 1];
      BestExists(g, front, req, effect);
      assert rules == front + [r];
    }
  }

  /** The specificity a rule is reported with. */
  function Score(g: Glob, r: Rule, req: Request): int {
    var m := FirstMatch(g, r.paths, req.path);
    if m.Some? then Specificity(m.value) else -1
  }

  ghost predicate Contends(g: Glob, rules: seq<Rule>, req: Request, effect: Effect, i: int) {
    0 <= i < |rules| && rules[i].effect == effect && Applies(g, rules[i], req)
  }

  /** `h` is the earliest of the most specific rules that apply. */
  ghost predicate IsReported(g: Glob, rules: seq<Rule>, req: Request, effect: Effect, i: int, h: Hit) {
    && Contends(g, rules, req, effect, i)
    && h.rule == rules[i] && FirstMatch(g, h.rule.paths, req.path) == Some(h.pattern)
    && (forall j :: Contends(g, rules, req, effect, j) ==> Leads(g, rules, req, i, j))
  }

  /** Rule i is at least as specific as rule j, and more so if j comes first. */
  ghost predicate Leads(g: Glob, rules: seq<Rule>, req: Request, i: int, j: int) {
    && 0 <= i < |rules| && 0 <= j < |rules|
    && Score(g, rules[j], req) <= Score(g, rules[i], req)
    && (j < i ==> Score(g, rules[j], req) < Score(g, rules[i], req))
  }

  lemma LeadsInFront(g: Glob, front: seq<Rule>, r: Rule, req: Request, effect: Effect, i: int, j: int)
    ensures Contends(g, front, req, effect, j) <==> j < |front| && Contends(g, front + [r], req, effect, j)
    ensures Leads(g, front, req, i, j) <==> i < |front| && j < |front| && Leads(g, front + [r], req, i, j)
  {
  }

  /** The reported rule is the first among the most specific ones, and there is one
      exactly when some rule of the effect applies. */
  lemma {:induction false} BestIsFirstMostSpecific(g: Glob, rules: seq<Rule>, req: Request, effect: Effect) returns (i: int)
    ensures Best(g, rules, req, effect).Some? <==> SomeRule(g, rules, req, effect)
    ensures Best(g, rules, req, effect).Some? ==> IsReported(g, rules, req, effect, i, Best(g, rules, req, effect).value)
  {
    BestExists(g, rules, req, effect);
    i := -1;
    if rules != [] {
      i := BestIsFirstMostSpecific(g, rules[..|rules| - 1], req, effect);
      i := Extends(g, rules, req, effect, i);
    }
  }

  lemma Extends(g: Glob, rules: seq<Rule>, req: Request, effect: Effect, i: int) returns (k: int)
    requires rules != []
    requires var b := Best(g, rules[..|rules| - 1], req, effect);
      b.Some? ==> IsReported(g, rules[..|rules| - 1], req, effect, i, b.value)
    requires Best(g, rules[..|rules| - 1], req, effect).None? ==> !SomeRule(g, rules[..|rules| - 1], req, effect)
    ensures var b := Best(g, rules, req, effect); b.Some? ==> IsReported(g, rules, req, effect, k, b.value)
  {
    var n := |rules| - 1;
    var front, r := rules[..n], rules[n];
    var b := Best(g, front, req, effect);
    assert rules == front + [r];
    assert Best(g, rules, req, effect) == Better(g, b, r, req, effect);
    k := i;
    if r.effect == effect && Applies(g, r, req) && (b.None? || Score(g, r, req) > Score(g, front[i], req)) {
      k := n;
      LastWins(g, front, r, req, effect, i);
    } else if b.Some? {
      FrontStays(g, front, r, req, effect, i, b.value);
    }
  }

  lemma LastWins(g: Glob, front: seq<Rule>, r: Rule, req: Request, effect: Effect, i: int)
    requires r.effect == effect && Applies(g, r, req)
    requires var b := Best(g, front, req, effect);
      && (b.None? ==> !SomeRule(g, front, req, effect))
      && (b.Some? ==> IsReported(g, front, req, effect, i, b.value) && Score(g, front[i], req) < Score(g, r, req))
    ensures IsReported(g, front + [r], req, effect, |front|, Hit(r, FirstMatch(g, r.paths, req.path).value))
  {
    var rules := front + [r];
    forall j | Contends(g, rules, req, effect, j) ensures Leads(g, rules, req, |front|, j) {
      if j < |front| {
        LeadsInFront(g, front, r, req, effect, i, j);
        assert front[j] in front;
      }
    }
  }

  lemma FrontStays(g: Glob, front: seq<Rule>, r: Rule, req: Request, effect: Effect, i: int, h: Hit)
    requires IsReported(g, front, req, effect, i, h)
    requires r.effect == effect && Applies(g, r, req) ==> Score(g, r, req) <= Score(g, front[i], req)
    ensures IsReported(g, front + [r], req, effect, i, h)
  {
    var rules := front + [r];
    LeadsInFront(g, front, r, req, effect, i, i);
    forall j | Contends(g, rules, req, effect, j) ensures Leads(g, rules, req, i, j) {
      if j < |front| {
        LeadsInFront(g, front, r, req, effect, i, j);
      }
    }
  }

  /** The engine decides what the declarative rule says, and gives the reason for it. */
  lemma DecideIsDeclarative(g: Glob, b: Bundle, req: Request)
    ensures Decide(g, b, req).allowed <==> Granted(g, b, req)
    ensures Decide(g, b, req).effect == if Granted(g, b, req) then Allow else Deny
    ensures Decide(g, b, req).reason ==
      if req.repo !in b.repos then UnknownRepository
      else if IsDisabled(b, req.subject.user) then UserDisabled
      else if SomeRule(g, RulesOf(b, req.repo), req, Deny) then DeniedByRule
      else if SomeRule(g, RulesOf(b, req.repo), req, Allow) then AllowedByRule
      else NoMatchingRule
  {
    var rules := RulesOf(b, req.repo);
    BestExists(g, rules, req, Deny);
    BestExists(g, rules, req, Allow);
  }

  /** Permuting a repository's rules moves no outcome and no reason. */
  lemma RuleOrderIsIrrelevant(g: Glob, b: Bundle, b': Bundle, req: Request)
    requires b' == b.(rules := b'.rules)
    requires multiset(RulesOf(b, req.repo)) == multiset(RulesOf(b', req.repo))
    ensures Decide(g, b, req).allowed == Decide(g, b', req).allowed
    ensures Decide(g, b, req).effect == Decide(g, b', req).effect
    ensures Decide(g, b, req).reason == Decide(g, b', req).reason
  {
    var rules, rules' := RulesOf(b, req.repo), RulesOf(b', req.repo);
    DecideIsDeclarative(g, b, req);
    DecideIsDeclarative(g, b', req);
    forall r ensures r in rules <==> r in rules' {
      assert r in rules <==> r in multiset(rules);
      assert r in rules' <==> r in multiset(rules');
    }
  }

  lemma BestOfOneMore(g: Glob, rules: seq<Rule>, i: nat, req: Request, effect: Effect)
    requires i < |rules|
    ensures Best(g, rules[..i + 1], req, effect) == Better(g, Best(g, rules[..i], req, effect), rules[i], req, effect)
  {
    assert rules[..i + 1][..i] == rules[..i];
  }

  /** One pass over every rule, keeping the best deny and the best allow. */
  method ScanRules(g: Glob, rules: seq<Rule>, req: Request) returns (bestDeny: Option<Hit>, bestAllow: Option<Hit>)
    ensures bestDeny == Best(g, rules, req, Deny)
    ensures bestAllow == Best(g, rules, req, Allow)
  {
    bestDeny, bestAllow := None, None;
    for i := 0 to |rules|
      invariant bestDeny == Best(g, rules[..i], req, Deny)
      invariant bestAllow == Best(g, rules[..i], req, Allow)
    {
      var r := rules[i];
      BestOfOneMore(g, rules, i, req, Deny);
      BestOfOneMore(g, rules, i, req, Allow);
      if !Reaches(g, r, req.subject, req.ref, req.action) {
        continue;
      }
      var pat := FirstMatch(g, r.paths, req.path);
      if pat.None? {
        continue;
      }
      if r.effect == Deny {
        if bestDeny.None? || Specificity(pat.value) > Specificity(bestDeny.value.pattern) {
          bestDeny := Some(Hit(r, pat.value));
        }
        continue;
      }
      if bestAllow.None? || Specificity(pat.value) > Specificity(bestAllow.value.pattern) {
        bestAllow := Some(Hit(r, pat.value));
      }
    }
    assert rules[..|rules|] == rules;
  }

  method Evaluate(g: Glob, b: Bundle, req: Request) returns (d: Decision)
    ensures d == Decide(g, b, req)
    ensures d.allowed <==> Granted(g, b, req)
  {
    DecideIsDeclarative(g, b, req);
    if req.repo !in b.repos {
      return Denied(UnknownRepository, b.version);
    }
    if IsDisabled(b, req.subject.user) {
      return Denied(UserDisabled, b.version);
    }
    var bestDeny, bestAllow := ScanRules(g, RulesOf(b, req.repo), req);
    if bestDeny.Some? {
      return ByRule(bestDeny.value, b.version);
    }
    if bestAllow.Some? {
      return ByRule(bestAllow.value, b.version);
    }
    d := Denied(NoMatchingRule, b.version);
  }

  // ---------------------------------------------------------------- the caching engine

  /** Memoizes decisions for one operation. */
  class CachingEngine {
    const g: Glob
    const bundle: Bundle
    const base: Request
    var cache: map<(string, Action), Decision>

    function Answer(path: string, action: Action): Decision {
      Decide(g, bundle, base.(path := path, action := action))
    }

    ghost predicate Valid()
      reads this
    {
      forall k :: k in cache ==> cache[k] == Answer(k.0, k.1)
    }

    constructor (g: Glob, bundle: Bundle, base: Request)
      ensures Valid() && this.g == g && this.bundle == bundle && this.base == base
    {
      this.g, this.bundle, this.base := g, bundle, base;
      cache := map[];
    }

    /** Whatever was asked before, the answer is the uncached one. */
    method EvaluateCached(path: string, action: Action) returns (d: Decision)
      requires Valid()
      modifies this
      ensures Valid() && d == Answer(path, action)
      ensures (path, action) in cache && cache.Keys == old(cache.Keys) + {(path, action)}
    {
      if (path, action) in cache {
        d := cache[(path, action)];
        return;
      }
      d := Evaluate(g, bundle, base.(path := path, action := action));
      cache := cache[(path, action) := d];
    }
  }
}
