/** What a rule says, in terms of who asks, where and for what: the reading of a policy
    its author relies on, without the engine's own predicates. */
module RuleMeaning {
  import opened Core
  import opened Policy

  // ---------------------------------------------------------------- patterns

  /** A pattern without a trailing slash is the glob it is written as; one with it covers
      the directory itself and what lies under it. */
  lemma MatchMeans(g: Glob, text: string, path: string)
    requires text != "" && text[|text| - 1] != '/'
    ensures Match(g, Pattern(text), path) <==> path != "" && g(text, path)
    ensures Match(g, Pattern(text + "/"), path) <==> path != "" && (g(text, path) || g(text + "/**", path))
  {
    assert (text + "/")[..|text|] == text;
  }

  predicate IsWildcard(c: char) {
    c == '*' || c == '?' || c == '[' || c == '{'
  }

  /** The prefix ends at the first wildcard. */
  lemma {:induction false} LiteralPrefixEnds(s: string)
    ensures var n := LiteralPrefix(s);
      n <= |s| && (forall i :: 0 <= i < n ==> !IsWildcard(s[i])) && (n < |s| ==> IsWildcard(s[n]))
  {
    if s != "" && !IsWildcard(s[0]) {
      LiteralPrefixEnds(s[1..]);
    }
  }

  // ---------------------------------------------------------------- rules

  /** The rule is for this subject by name, by group, or for everyone. */
  ghost predicate IsFor(rs: RuleSubject, s: Subject) {
    rs == AnyOne || rs == TheUser(s.user) || exists id :: id in s.groups && rs == TheGroup(id)
  }

  /** Everyone, the user or a group of theirs is exempt from the rule. */
  ghost predicate Exempt(r: Rule, s: Subject) {
    AnyOne in r.except || TheUser(s.user) in r.except || exists id :: id in s.groups && TheGroup(id) in r.except
  }

  ghost predicate SomeMatch(g: Glob, ps: seq<Pattern>, path: string) {
    exists p :: p in ps && Match(g, p, path)
  }

  /** The rule speaks to the request. */
  ghost predicate Concerns(g: Glob, r: Rule, req: Request) {
    && IsFor(r.subject, req.subject) && !Exempt(r, req.subject)
    && req.action in r.actions
    && (r.refs == [] || (req.ref != "" && SomeMatch(g, r.refs, req.ref)))
    && SomeMatch(g, r.paths, req.path)
  }

  lemma SubjectMeans(r: Rule, s: Subject)
    ensures MatchesSubject(r, s) <==> IsFor(r.subject, s) && !Exempt(r, s)
  {
    forall rs ensures Selects(rs, s) <==> IsFor(rs, s) {
    }
    assert Exempt(r, s) <==> exists ex :: ex in r.except && Selects(ex, s);
  }

  lemma AppliesMeans(g: Glob, r: Rule, req: Request)
    ensures Applies(g, r, req) <==> Concerns(g, r, req)
  {
    SubjectMeans(r, req.subject);
    assert FirstMatch(g, r.paths, req.path).Some? <==> SomeMatch(g, r.paths, req.path);
  }

  /** The decision, read off the rules: allowed means a known repository, an account not
      disabled, some allow rule that speaks to the request and no deny rule that does. */
  lemma DecisionMeans(g: Glob, b: Bundle, req: Request)
    ensures Decide(g, b, req).allowed <==>
      && req.repo in b.repos && !(req.subject.user in b.disabled && b.disabled[req.subject.user])
      && req.repo in b.rules
      && (exists r :: r in b.rules[req.repo] && r.effect == Allow && Concerns(g, r, req))
      && !(exists r :: r in b.rules[req.repo] && r.effect == Deny && Concerns(g, r, req))
  {
    DecideIsDeclarative(g, b, req);
    forall r ensures Applies(g, r, req) <==> Concerns(g, r, req) {
      AppliesMeans(g, r, req);
    }
  }

  lemma {:induction false} IdleInBest(g: Glob, front: seq<Rule>, r: Rule, back: seq<Rule>, req: Request, effect: Effect)
    requires !Applies(g, r, req)
    ensures Best(g, front + [r] + back, req, effect) == Best(g, front + back, req, effect)
    decreases |back|
  {
    if back == [] {
      assert front + [r] + back == front + [r] && front + back == front;
      BestSnoc(g, front, r, req, effect);
    } else {
      var rest, last := back[..|back| - 1], back[|back| - 1];
      IdleInBest(g, front, r, rest, req, effect);
      assert front + [r] + back == front + [r] + rest + [last] && front + back == front + rest + [last];
      BestSnoc(g, front + [r] + rest, last, req, effect);
      BestSnoc(g, front + rest, last, req, effect);
    }
  }

  lemma BestSnoc(g: Glob, front: seq<Rule>, r: Rule, req: Request, effect: Effect)
    ensures Best(g, front + [r], req, effect) == Better(g, Best(g, front, req, effect), r, req, effect)
  {
    assert (front + [r])[..|front|] == front;
  }

  /** A rule that does not speak to a request might as well not be there: the whole
      decision, the reported rule included, is the one without it. */
  lemma IdleRuleChangesNothing(g: Glob, b: Bundle, front: seq<Rule>, r: Rule, back: seq<Rule>, req: Request)
    requires
      || Exempt(r, req.subject)
      || (r.subject.TheUser? && r.subject.id != req.subject.user)
      || (r.subject.TheGroup? && r.subject.id !in req.subject.groups)
      || req.action !in r.actions
      || (r.refs != [] && (req.ref == "" || !SomeMatch(g, r.refs, req.ref)))
      || !SomeMatch(g, r.paths, req.path)
    ensures Decide(g, b.(rules := b.rules[req.repo := front + [r] + back]), req) ==
            Decide(g, b.(rules := b.rules[req.repo := front + back]), req)
  {
    AppliesMeans(g, r, req);
    IdleInBest(g, front, r, back, req, Deny);
    IdleInBest(g, front, r, back, req, Allow);
  }

  /** And a lone allow rule for everyone, the user or a group of theirs, with nobody
      exempt and no refs named, allows what its patterns cover. */
  lemma LoneAllowAllows(g: Glob, b: Bundle, r: Rule, req: Request)
    requires req.repo in b.repos && !IsDisabled(b, req.subject.user) && req.repo in b.rules && b.rules[req.repo] == [r]
    requires r.effect == Allow && r.except == [] && r.refs == [] && req.action in r.actions
    requires r.subject == AnyOne || r.subject == TheUser(req.subject.user) || (r.subject.TheGroup? && r.subject.id in req.subject.groups)
    requires SomeMatch(g, r.paths, req.path)
    ensures var d := Decide(g, b, req);
      && d.allowed && d.reason == AllowedByRule
      && d.ruleId == r.id && d.description == r.description && d.version == b.version
      && Pattern(d.pattern) in r.paths && Match(g, Pattern(d.pattern), req.path)
  {
    AppliesMeans(g, r, req);
    DecideIsDeclarative(g, b, req);
    assert [r][..0] == [];
    assert Best(g, [], req, Deny).None? && Best(g, [], req, Allow).None?;
  }
}
