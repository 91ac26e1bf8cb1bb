/** The rights profile: a fingerprint under which filtered projections are shared. */
module Profile {
  import opened Policy
  import opened Encoding

  function ActionText(a: Action): string {
    match a
    case Read => "read"
    case Write => "write"
    case Create => "create"
    case Delete => "delete"
    case Admin => "admin"
  }

  lemma ActionTextInjective(a: Action, b: Action)
    requires ActionText(a) == ActionText(b)
    ensures a == b
  {
    assert "read"[0] == 'r' && "write"[0] == 'w' && "create"[0] == 'c' && "delete"[0] == 'd' && "admin"[0] == 'a';
  }

  /** The positions of the rules that survive the subject-dependent predicates. */
  function Survivors(g: Glob, rules: seq<Rule>, s: Subject, ref: string, a: Action): seq<string> {
    if rules == [] then []
    else
      var i := |rules| - 1;
      Survivors(g, rules[..i], s, ref, a) + if Reaches(g, rules[i], s, ref, a) then [Itoa(i)] else []
  }

  function Parts(g: Glob, b: Bundle, repo: string, ref: string, a: Action, s: Subject): seq<string> {
    ["nit-profile-v1", b.version, repo, ref, ActionText(a)] +
    if IsDisabled(b, s.user) then ["disabled"]
    else ["enabled"] + Survivors(g, RulesOf(b, repo), s, ref, a)
  }

  function ProfileOf(hash: string -> string, g: Glob, b: Bundle, repo: string, ref: string, a: Action, s: Subject): string {
    hash(Encode(Parts(g, b, repo, ref, a, s)))
  }

  /** Profile: fields fed one by one to a running hash. */
  method ComputeProfile(hash: string -> string, g: Glob, b: Bundle, repo: string, ref: string, a: Action, s: Subject)
    returns (profile: string)
    ensures profile == ProfileOf(hash, g, b, repo, ref, a, s)
  {
    var fields := ["nit-profile-v1", b.version, repo, ref, ActionText(a)];
    var h := "";
    for i := 0 to |fields|
      invariant h == Encode(fields[..i])
    {
      EncodeAppend(fields[..i], fields[i]);
      assert fields[..i + 1] == fields[..i] + [fields[i]];
      h := h + Field(fields[i]);
    }
    assert fields[..|fields|] == fields;
    if IsDisabled(b, s.user) {
      EncodeAppend(fields, "disabled");
      return hash(h + Field("disabled"));
    }
    EncodeAppend(fields, "enabled");
    h := WriteSurvivors(h + Field("enabled"), fields + ["enabled"], g, RulesOf(b, repo), s, ref, a);
    assert fields + ["enabled"] + Survivors(g, RulesOf(b, repo), s, ref, a) == Parts(g, b, repo, ref, a, s);
    profile := hash(h);
  }

  /** The loop over the rules: the position of each that reaches the subject is written. */
  method WriteSurvivors(start: string, ghost head: seq<string>, g: Glob, rules: seq<Rule>, s: Subject, ref: string, a: Action)
    returns (h: string)
    requires start == Encode(head)
    ensures h == Encode(head + Survivors(g, rules, s, ref, a))
  {
    h := start;
    assert head + Survivors(g, rules[..0], s, ref, a) == head;
    for i := 0 to |rules|
      invariant h == Encode(head + Survivors(g, rules[..i], s, ref, a))
    {
      assert rules[..i + 1][..i] == rules[..i];
      ghost var done := head + Survivors(g, rules[..i], s, ref, a);
      if !Reaches(g, rules[i], s, ref, a) {
        assert Survivors(g, rules[..i + 1], s, ref, a) == Survivors(g, rules[..i], s, ref, a);
        continue;
      }
      EncodeAppend(done, Itoa(i));
      assert done + [Itoa(i)] == head + Survivors(g, rules[..i + 1], s, ref, a);
      h := h + Field(Itoa(i));
    }
    assert rules[..|rules|] == rules;
  }

  /** A position is listed exactly when its rule reaches the subject. */
  lemma {:induction false} Listed(g: Glob, rules: seq<Rule>, s: Subject, ref: string, a: Action, i: nat)
    ensures Itoa(i) in Survivors(g, rules, s, ref, a) <==> i < |rules| && Reaches(g, rules[i], s, ref, a)
  {
    if rules != [] {
      var n := |rules| - 1;
      Listed(g, rules[..n], s, ref, a, i);
      if Itoa(i) == Itoa(n) {
        ItoaInjective(i, n);
      }
    }
  }

  lemma {:induction false} BestDependsOnReach(g: Glob, rules: seq<Rule>, r1: Request, r2: Request, effect: Effect)
    requires r1.path == r2.path
    requires forall i :: 0 <= i < |rules| ==>
      (Reaches(g, rules[i], r1.subject, r1.ref, r1.action) <==> Reaches(g, rules[i], r2.subject, r2.ref, r2.action))
    ensures Best(g, rules, r1, effect) == Best(g, rules, r2, effect)
  {
    if rules != [] {
      var n := |rules| - 1;
      assert forall i :: 0 <= i < n ==> rules[..n][i] == rules[i];
      BestDependsOnReach(g, rules[..n], r1, r2, effect);
      assert Reaches(g, rules[n], r1.subject, r1.ref, r1.action) <==> Reaches(g, rules[n], r2.subject, r2.ref, r2.action);
    }
  }

  /** The contract of a profile: subjects that share one ask about the same
      repository, ref and action, and receive the same decision, in full, on every path. */
  lemma EqualProfilesDecideAlike(
      hash: string -> string, g: Glob, b: Bundle,
      repo: string, ref: string, a: Action, s: Subject,
      repo': string, ref': string, a': Action, s': Subject, path: string)
    requires Injective(hash)
    requires ProfileOf(hash, g, b, repo, ref, a, s) == ProfileOf(hash, g, b, repo', ref', a', s')
    ensures repo == repo' && ref == ref' && a == a'
    ensures Decide(g, b, Request(repo, ref, s, path, a)) == Decide(g, b, Request(repo', ref', s', path, a'))
  {
    var p, p' := Parts(g, b, repo, ref, a, s), Parts(g, b, repo', ref', a', s');
    EncodeInjective(p, p');
    assert p[2] == repo && p[3] == ref && p[4] == ActionText(a);
    assert p'[2] == repo' && p'[3] == ref' && p'[4] == ActionText(a');
    assert p[5] == if IsDisabled(b, s.user) then "disabled" else "enabled";
    assert p'[5] == if IsDisabled(b, s'.user) then "disabled" else "enabled";
    ActionTextInjective(a, a');
    assert "disabled"[0] == 'd' && "enabled"[0] == 'e';
    if !IsDisabled(b, s.user) {
      var rules := RulesOf(b, repo);
      assert Survivors(g, rules, s, ref, a) == p[6..] == p'[6..] == Survivors(g, rules, s', ref, a);
      forall i | 0 <= i < |rules| ensures Reaches(g, rules[i], s, ref, a) <==> Reaches(g, rules[i], s', ref, a) {
        Listed(g, rules, s, ref, a, i);
        Listed(g, rules, s', ref, a, i);
      }
      var r1, r2 := Request(repo, ref, s, path, a), Request(repo, ref, s', path, a);
      BestDependsOnReach(g, rules, r1, r2, Deny);
      BestDependsOnReach(g, rules, r1, r2, Allow);
    }
  }

  /** Bundles compiled at different versions never share a profile. */
  lemma VersionsNeverShare(
      hash: string -> string, g: Glob, b: Bundle, b': Bundle,
      repo: string, ref: string, a: Action, s: Subject,
      repo': string, ref': string, a': Action, s': Subject)
    requires Injective(hash)
    requires ProfileOf(hash, g, b, repo, ref, a, s) == ProfileOf(hash, g, b', repo', ref', a', s')
    ensures b.version == b'.version
  {
    var p, p' := Parts(g, b, repo, ref, a, s), Parts(g, b', repo', ref', a', s');
    EncodeInjective(p, p');
    assert p[1] == b.version && p'[1] == b'.version;
  }
}
