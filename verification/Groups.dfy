/** Groups: inclusion cycles and transitive membership, as Compile resolves them. */
module Groups {
  import opened Core
  import opened Collections
  import opened Sorting
  import Policy

  datatype Group = Group(members: seq<string>, includes: seq<string>)

  type Graph = map<string, Group>

  datatype Color = Grey | Black      // a group without a colour is white

  ghost predicate Edge(g: Graph, a: string, b: string) {
    a in g && b in g[a].includes
  }

  /** Each group of the chain includes the next. */
  ghost predicate Chain(g: Graph, p: seq<string>) {
    p != [] && forall i, j :: 0 <= i < j < |p| && j == i + 1 ==> Edge(g, p[i], p[j])
  }

  ghost predicate Cycle(g: Graph, p: seq<string>) {
    Chain(g, p) && |p| > 1 && p[0] == p[|p| - 1]
  }

  ghost predicate HasCycle(g: Graph) {
    exists p :: Cycle(g, p)
  }

  /** checkGroupReferences: every member is a user, every included group exists. */
  predicate ReferencesOk(users: set<string>, g: Graph) {
    && (forall id, m :: id in g && m in g[id].members ==> m in users)
    && (forall id, inc :: id in g && inc in g[id].includes ==> inc in g)
  }

  ghost predicate Closed(g: Graph) {
    forall a, b :: Edge(g, a, b) ==> b in g
  }

  // ---------------------------------------------------------------- cycle detection

  /** The finished groups and the order they finished in: what a group includes
      finished before it. */
  ghost predicate Finished(g: Graph, rank: map<string, nat>) {
    && (forall x :: x in rank ==> rank[x] < |rank|)
    && (forall a, b :: a in rank && Edge(g, a, b) ==> b in rank && rank[b] < rank[a])
  }

  ghost predicate Colored(g: Graph, state: map<string, Color>, path: seq<string>, rank: map<string, nat>) {
    && state.Keys <= g.Keys
    && (forall x :: x in path <==> x in state && state[x] == Grey)
    && (forall x :: x in rank <==> x in state && state[x] == Black)
  }

  lemma ChainAppend(g: Graph, p: seq<string>, inc: string)
    requires Chain(g, p) && Edge(g, p[|p| - 1], inc)
    ensures Chain(g, p + [inc])
  {
    var q := p + [inc];
    forall i, j | 0 <= i < j < |q| && j == i + 1 ensures Edge(g, q[i], q[j]) {
      if j < |p| { assert Edge(g, p[i], p[j]); }
    }
  }

  /** A grey group met again closes a cycle along the path. */
  lemma GreyClosesCycle(g: Graph, path: seq<string>, id: string)
    requires Chain(g, path + [id]) && id in path
    ensures HasCycle(g)
  {
    var p := path + [id];
    var k :| 0 <= k < |path| && path[k] == id;
    var c := p[k..];
    forall i, j | 0 <= i < j < |c| && j == i + 1 ensures Edge(g, c[i], c[j]) {
      assert Edge(g, p[k + i], p[k + i + 1]);
    }
    assert Cycle(g, c);
  }

  lemma Enter(g: Graph, state: map<string, Color>, path: seq<string>, rank: map<string, nat>, id: string)
    requires Colored(g, state, path, rank) && id in g && id !in state
    ensures Colored(g, state[id := Grey], path + [id], rank)
  {
    assert forall x :: x in path + [id] <==> x in path || x == id;
  }

  lemma Leave(g: Graph, state: map<string, Color>, path: seq<string>, rank: map<string, nat>, id: string)
    requires Colored(g, state, path + [id], rank) && id !in path && Finished(g, rank)
    requires forall inc :: Edge(g, id, inc) ==> inc in rank
    ensures Colored(g, state[id := Black], path, rank[id := |rank|]) && Finished(g, rank[id := |rank|])
  {
    assert id in path + [id];
    assert forall x :: x in path + [id] <==> x in path || x == id;
    assert id !in rank;
    LastFinished(g, rank, id);
  }

  lemma LastFinished(g: Graph, rank: map<string, nat>, id: string)
    requires Finished(g, rank) && id !in rank
    requires forall inc :: Edge(g, id, inc) ==> inc in rank
    ensures Finished(g, rank[id := |rank|])
  {
    var later := rank[id := |rank|];
    assert later.Keys == rank.Keys + {id};
    assert |later.Keys| == |rank.Keys| + 1;
  }

  ghost predicate NamesCycle(g: Graph, p: seq<string>) {
    HasCycle(g) && Chain(g, p) && p[|p| - 1] in p[..|p| - 1]
  }

  /** visit, with the colours as they stand on entry and on exit. */
  method Visit(g: Graph, id: string, path: seq<string>, state: map<string, Color>, ghost rank: map<string, nat>)
    returns (cycle: Option<seq<string>>, state': map<string, Color>, ghost rank': map<string, nat>)
    requires Closed(g) && id in g && Chain(g, path + [id])
    requires Colored(g, state, path, rank) && Finished(g, rank)
    ensures cycle.Some? ==> NamesCycle(g, cycle.value)
    ensures cycle.None? ==>
      && Colored(g, state', path, rank') && Finished(g, rank')
      && rank.Keys <= rank'.Keys && id in rank' && state.Keys <= state'.Keys
    decreases |g.Keys - state.Keys|, 1
  {
    state', rank' := state, rank;
    if id in state {
      if state[id] == Grey {
        GreyClosesCycle(g, path, id);
        assert (path + [id])[..|path|] == path;
        return Some(path + [id]), state', rank';
      }
      return None, state', rank';
    }
    Enter(g, state, path, rank, id);
    assert id in g.Keys - state.Keys && id !in g.Keys - state[id := Grey].Keys;
    SubsetSmaller(g.Keys - state[id := Grey].Keys, g.Keys - state.Keys);
    cycle, state', rank' := VisitIncludes(g, path + [id], state[id := Grey], rank);
    if cycle.None? {
      Leave(g, state', path, rank', id);
      state', rank' := state'[id := Black], rank'[id := |rank'|];
    }
  }

  ghost predicate Covered(ids: seq<string>, k: nat, done: set<string>)
    requires k <= |ids|
  {
    forall i :: 0 <= i < k ==> ids[i] in done
  }

  lemma CoverOne(ids: seq<string>, k: nat, a: set<string>, b: set<string>)
    requires k < |ids| && Covered(ids, k, a) && a <= b && ids[k] in b
    ensures Covered(ids, k + 1, b)
  {
  }

  /** The loop over what the last group of the path includes. */
  method VisitIncludes(g: Graph, here: seq<string>, state: map<string, Color>, ghost rank: map<string, nat>)
    returns (cycle: Option<seq<string>>, state': map<string, Color>, ghost rank': map<string, nat>)
    requires Closed(g) && Chain(g, here) && here[|here| - 1] in g
    requires Colored(g, state, here, rank) && Finished(g, rank)
    ensures cycle.Some? ==> NamesCycle(g, cycle.value)
    ensures cycle.None? ==>
      && Colored(g, state', here, rank') && Finished(g, rank')
      && rank.Keys <= rank'.Keys && state.Keys <= state'.Keys
      && (forall inc :: Edge(g, here[|here| - 1], inc) ==> inc in rank')
    decreases |g.Keys - state.Keys|, 2
  {
    state', rank', cycle := state, rank, None;
    var includes := g[here[|here| - 1]].includes;
    for k := 0 to |includes|
      invariant cycle.None? && Colored(g, state', here, rank') && Finished(g, rank')
      invariant rank.Keys <= rank'.Keys && state.Keys <= state'.Keys
      invariant Covered(includes, k, rank'.Keys)
    {
      assert Edge(g, here[|here| - 1], includes[k]);
      ChainAppend(g, here, includes[k]);
      SubsetSmaller(g.Keys - state'.Keys, g.Keys - state.Keys);
      ghost var finished := rank'.Keys;
      cycle, state', rank' := Visit(g, includes[k], here, state', rank');
      if cycle.Some? {
        return;
      }
      CoverOne(includes, k, finished, rank'.Keys);
    }
  }

  /** Along a chain of finished groups, finishing positions only go down. */
  lemma {:induction false} ChainDescends(g: Graph, rank: map<string, nat>, p: seq<string>)
    requires Finished(g, rank) && Chain(g, p) && p[0] in rank
    ensures p[|p| - 1] in rank
    ensures |p| > 1 ==> rank[p[|p| - 1]] < rank[p[0]]
  {
    if |p| > 1 {
      assert Edge(g, p[0], p[1]);
      var q := p[1..];
      forall k, l | 0 <= k < l < |q| && l == k + 1 ensures Edge(g, q[k], q[l]) {
        assert Edge(g, p[k + 1], p[k + 2]);
      }
      ChainDescends(g, rank, q);
    }
  }

  lemma FinishedIsAcyclic(g: Graph, rank: map<string, nat>)
    requires Finished(g, rank) && forall id :: id in g ==> id in rank
    ensures !HasCycle(g)
  {
    forall p ensures !Cycle(g, p) {
      if Cycle(g, p) {
        assert Edge(g, p[0], p[1]);
        ChainDescends(g, rank, p);
      }
    }
  }

  lemma CoveredIsAcyclic(g: Graph, rank: map<string, nat>, ids: seq<string>)
    requires Finished(g, rank) && Covered(ids, |ids|, rank.Keys) && forall id :: id in g ==> id in ids
    ensures !HasCycle(g)
  {
    FinishedIsAcyclic(g, rank);
  }

  /** detectGroupCycles: an error exactly when the inclusion graph has a cycle, and
      the error names a path that runs into itself. */
  method DetectGroupCycles(g: Graph) returns (cycle: Option<seq<string>>)
    requires Closed(g)
    ensures cycle.Some? <==> HasCycle(g)
    ensures cycle.Some? ==> NamesCycle(g, cycle.value)
  {
    var state: map<string, Color> := map[];
    ghost var rank: map<string, nat> := map[];
    var ids := SortIds(g.Keys);
    for k := 0 to |ids|
      invariant Colored(g, state, [], rank) && Finished(g, rank)
      invariant Covered(ids, k, rank.Keys)
    {
      assert ids[k] in g && [] + [ids[k]] == [ids[k]];
      ghost var finished := rank.Keys;
      cycle, state, rank := Visit(g, ids[k], [], state, rank);
      if cycle.Some? {
        return;
      }
      CoverOne(ids, k, finished, rank.Keys);
    }
    CoveredIsAcyclic(g, rank, ids);
    cycle := None;
  }

  // ---------------------------------------------------------------- membership

  /** `top` includes `g` directly, indirectly, or is it. */
  ghost predicate Above(g: Graph, top: string, bottom: string) {
    exists p :: Chain(g, p) && p[0] == top && p[|p| - 1] == bottom
  }

  /** A user belongs to a group that reaches, by inclusion, one listing them. */
  ghost predicate Belongs(g: Graph, user: string, id: string) {
    exists d :: d in g && user in g[d].members && Above(g, id, d)
  }

  lemma AboveSelf(g: Graph, id: string)
    ensures Above(g, id, id)
  {
    assert Chain(g, [id]) && [id][0] == id;
  }

  lemma AboveStep(g: Graph, a: string, b: string, c: string)
    requires Edge(g, a, b) && Above(g, b, c)
    ensures Above(g, a, c)
  {
    var p :| Chain(g, p) && p[0] == b && p[|p| - 1] == c;
    var q := [a] + p;
    forall i, j | 0 <= i < j < |q| && j == i + 1 ensures Edge(g, q[i], q[j]) {
      if i > 0 { assert Edge(g, p[i - 1], p[i]); }
    }
    assert Chain(g, q) && q[0] == a && q[|q| - 1] == c;
  }

  /** A set that contains the bottom of a chain and is closed upwards contains its top. */
  lemma {:induction false} ClosedUpwards(g: Graph, seen: set<string>, p: seq<string>)
    requires Chain(g, p) && p[|p| - 1] in seen
    requires forall a, b :: b in seen && Edge(g, a, b) ==> a in seen
    ensures p[0] in seen
  {
    if |p| > 1 {
      assert Edge(g, p[0], p[1]);
      var q := p[1..];
      forall k, l | 0 <= k < l < |q| && l == k + 1 ensures Edge(g, q[k], q[l]) {
        assert Edge(g, p[k + 1], p[k + 2]);
      }
      ClosedUpwards(g, seen, q);
    }
  }

  function At(m: map<string, seq<string>>, k: string): seq<string> {
    if k in m then m[k] else []
  }

  /** Reverses a listing: includedBy from includes, direct from members. */
  method Reverse(g: Graph, ofMembers: bool) returns (inv: map<string, seq<string>>)
    ensures forall x, id :: id in At(inv, x) <==> id in g && x in (if ofMembers then g[id].members else g[id].includes)
  {
    inv := map[];
    assert forall x :: At(inv, x) == [];
    var left := g.Keys;
    while left != {}
      invariant left <= g.Keys
      invariant forall x, id :: id in At(inv, x) <==>
        id in g && id !in left && x in (if ofMembers then g[id].members else g[id].includes)
      decreases left
    {
      var id :| id in left;
      inv := AppendTo(inv, if ofMembers then g[id].members else g[id].includes, id);
      left := left - {id};
    }
  }

  method AppendTo(inv: map<string, seq<string>>, list: seq<string>, id: string) returns (inv': map<string, seq<string>>)
    ensures forall x, y :: y in At(inv', x) <==> y in At(inv, x) || (y == id && x in list)
  {
    inv' := inv;
    for k := 0 to |list|
      invariant forall x, y :: y in At(inv', x) <==> y in At(inv, x) || (y == id && x in list[..k])
    {
      inv' := inv'[list[k] := At(inv', list[k]) + [id]];
      assert list[..k + 1] == list[..k] + [list[k]];
    }
    assert list[..|list|] == list;
  }

  ghost predicate Reached(g: Graph, direct: seq<string>, x: string) {
    exists d :: d in direct && Above(g, x, d)
  }

  lemma ReachedSelf(g: Graph, direct: seq<string>, x: string)
    requires x in direct
    ensures Reached(g, direct, x)
  {
    AboveSelf(g, x);
  }

  lemma ReachedStep(g: Graph, direct: seq<string>, up: string, x: string)
    requires Reached(g, direct, x) && Edge(g, up, x)
    ensures Reached(g, direct, up)
  {
    var d :| d in direct && Above(g, x, d);
    AboveStep(g, up, x, d);
  }

  lemma ReachedAreSeen(g: Graph, direct: seq<string>, seen: set<string>, x: string)
    requires forall d :: d in direct ==> d in seen
    requires forall a, b :: b in seen && Edge(g, a, b) ==> a in seen
    requires Reached(g, direct, x)
    ensures x in seen
  {
    var d :| d in direct && Above(g, x, d);
    var p :| Chain(g, p) && p[0] == x && p[|p| - 1] == d;
    ClosedUpwards(g, seen, p);
  }

  /** What is seen or still queued: sound, and leaving nothing behind. */
  ghost predicate Worklist(g: Graph, direct: seq<string>, seen: set<string>, queue: seq<string>) {
    && seen <= g.Keys
    && (forall x :: x in queue ==> x in g)
    && (forall x :: x in seen || x in queue ==> Reached(g, direct, x))
    && (forall d :: d in direct ==> d in seen || d in queue)
    && (forall a, b :: b in seen && Edge(g, a, b) ==> a in seen || a in queue)
  }

  lemma WorklistStep(g: Graph, direct: seq<string>, seen: set<string>, queue: seq<string>, ups: seq<string>)
    requires Worklist(g, direct, seen, queue) && queue != []
    requires forall id :: id in ups <==> Edge(g, id, queue[0])
    ensures Worklist(g, direct, seen + {queue[0]}, queue[1..] + ups)
  {
    var x, rest := queue[0], queue[1..];
    assert queue == [x] + rest;
    forall up | up in ups ensures Reached(g, direct, up) {
      ReachedStep(g, direct, up, x);
    }
    assert forall y :: y in rest + ups <==> y in rest || y in ups;
  }

  lemma WorklistStart(g: Graph, direct: seq<string>)
    requires forall d :: d in direct ==> d in g
    ensures Worklist(g, direct, {}, direct)
  {
    forall d | d in direct ensures Reached(g, direct, d) { ReachedSelf(g, direct, d); }
  }

  lemma WorklistSkip(g: Graph, direct: seq<string>, seen: set<string>, queue: seq<string>)
    requires Worklist(g, direct, seen, queue) && queue != [] && queue[0] in seen
    ensures Worklist(g, direct, seen, queue[1..])
  {
    assert queue == [queue[0]] + queue[1..];
  }

  lemma WorklistDone(g: Graph, direct: seq<string>, seen: set<string>)
    requires Worklist(g, direct, seen, [])
    ensures forall x :: x in seen <==> Reached(g, direct, x)
  {
    forall x | Reached(g, direct, x) ensures x in seen {
      ReachedAreSeen(g, direct, seen, x);
    }
  }

  /** A group seen for the first time leaves fewer unseen. */
  lemma FewerUnseen(g: Graph, seen: set<string>, x: string)
    requires x in g && x !in seen
    ensures |g.Keys - (seen + {x})| < |g.Keys - seen|
  {
    assert x in g.Keys - seen && x !in g.Keys - (seen + {x});
    SubsetSmaller(g.Keys - (seen + {x}), g.Keys - seen);
  }

  /** The worklist for one user: exactly the groups above the direct ones. */
  method Closure(g: Graph, includedBy: map<string, seq<string>>, direct: seq<string>) returns (groups: seq<string>)
    requires Closed(g) && forall d :: d in direct ==> d in g
    requires forall x, id :: id in At(includedBy, x) <==> Edge(g, id, x)
    ensures Ascending(groups)
    ensures forall x :: x in groups <==> Reached(g, direct, x)
  {
    var seen: set<string> := {};
    var queue := direct;
    WorklistStart(g, direct);
    while queue != []
      invariant Worklist(g, direct, seen, queue)
      decreases |g.Keys - seen|, |queue|
    {
      var x := queue[0];
      if x in seen {
        WorklistSkip(g, direct, seen, queue);
        queue := queue[1..];
      } else {
        WorklistStep(g, direct, seen, queue, At(includedBy, x));
        assert x in queue;
        FewerUnseen(g, seen, x);
        seen := seen + {x};
        queue := queue[1..] + At(includedBy, x);
      }
    }
    WorklistDone(g, direct, seen);
    groups := SortIds(seen);
  }

  /** Exactly the groups each user belongs to, in order. */
  ghost predicate Resolved(users: set<string>, g: Graph, memberships: map<string, seq<string>>) {
    && memberships.Keys == users
    && forall u :: u in users ==>
         Ascending(memberships[u]) && forall id :: id in memberships[u] <==> Belongs(g, u, id)
  }

  method ResolveMemberships(users: set<string>, g: Graph) returns (r: Result<map<string, seq<string>>, string>)
    requires Closed(g)
    ensures r.Failure? <==> HasCycle(g)
    ensures r.Success? ==> Resolved(users, g, r.value)
  {
    var cycle := DetectGroupCycles(g);
    if cycle.Some? {
      return Failure("group inclusion cycle");
    }
    var includedBy := Reverse(g, false);
    var direct := Reverse(g, true);
    var memberships: map<string, seq<string>> := map[];
    var left := users;
    while left != {}
      invariant left <= users && memberships.Keys == users - left
      invariant forall u :: u in memberships ==>
        Ascending(memberships[u]) && forall id :: id in memberships[u] <==> Belongs(g, u, id)
      decreases left
    {
      var u :| u in left;
      var groups := Closure(g, includedBy, At(direct, u));
      forall id ensures id in groups <==> Belongs(g, u, id) {
        assert Reached(g, At(direct, u), id) <==> Belongs(g, u, id);
      }
      memberships := memberships[u := groups];
      left := left - {u};
    }
    r := Success(memberships);
  }

  // ---------------------------------------------------------------- compiling the groups

  const DIRECTORY_PREFIX := "idp:"

  predicate FromDirectory(id: string) {
    DIRECTORY_PREFIX <= id
  }

  /** Directory groups the bundle mentions and nothing supplied, declared as empty. */
  function Adopt(declared: Graph, mentioned: set<string>): Graph {
    declared + map id | id in mentioned && FromDirectory(id) && id !in declared :: Group([], [])
  }

  /** Only ids under the directory's prefix are adopted, and as groups of nobody; an
      ordinary name nothing declares stays undeclared. */
  lemma AdoptedAre(declared: Graph, mentioned: set<string>, id: string)
    ensures id in Adopt(declared, mentioned) <==> id in declared || (id in mentioned && |id| >= 4 && id[..4] == "idp:")
    ensures id in declared ==> Adopt(declared, mentioned)[id] == declared[id]
    ensures id in Adopt(declared, mentioned) && id !in declared ==>
      Adopt(declared, mentioned)[id].members == [] && Adopt(declared, mentioned)[id].includes == []
  {
  }

  function NamedAll(subjects: seq<Policy.RuleSubject>): (ids: seq<string>)
    ensures forall id :: id in ids <==> Policy.TheGroup(id) in subjects
  {
    if subjects == [] then []
    else (match subjects[0] case TheGroup(id) => [id] case _ => []) + NamedAll(subjects[1..])
  }

  /** The groups a rule names: its subject, then its exceptions. */
  function NamedIn(r: Policy.Rule): seq<string> {
    NamedAll([r.subject] + r.except)
  }

  /** What the bundle refers to: the groups that groups include and that rules name. */
  ghost function Mentioned(declared: Graph, rules: seq<Policy.Rule>): set<string> {
    Included(declared, declared.Keys) + Named(rules)
  }

  ghost function Elements(ids: seq<string>): set<string> {
    set id | id in ids
  }

  method AdoptAll(declared: Graph, g: Graph, ids: seq<string>, ghost m: set<string>) returns (g': Graph)
    requires g == Adopt(declared, m)
    ensures g' == Adopt(declared, m + Elements(ids))
  {
    g' := g;
    assert m + Elements(ids[..0]) == m;
    for k := 0 to |ids|
      invariant g' == Adopt(declared, m + Elements(ids[..k]))
    {
      assert ids[..k + 1] == ids[..k] + [ids[k]];
      AdoptOne(declared, m + Elements(ids[..k]), ids[k]);
      assert m + Elements(ids[..k + 1]) == m + Elements(ids[..k]) + {ids[k]};
      if FromDirectory(ids[k]) && ids[k] !in g' {
        g' := g'[ids[k] := Group([], [])];
      }
    }
    assert ids[..|ids|] == ids;
  }

  lemma AdoptOne(declared: Graph, m: set<string>, id: string)
    ensures var g := Adopt(declared, m);
      Adopt(declared, m + {id}) == if FromDirectory(id) && id !in g then g[id := Group([], [])] else g
  {
  }

  ghost function Included(declared: Graph, ids: set<string>): set<string> {
    set id, inc | id in ids && id in declared && inc in declared[id].includes :: inc
  }

  ghost function Named(rules: seq<Policy.Rule>): set<string> {
    set i, id | 0 <= i < |rules| && id in NamedIn(rules[i]) :: id
  }

  method AdoptIncluded(declared: Graph) returns (g: Graph)
    ensures g == Adopt(declared, Included(declared, declared.Keys))
  {
    g := declared;
    var left := declared.Keys;
    AdoptNone(declared);
    assert declared.Keys - left == {};
    while left != {}
      invariant left <= declared.Keys && g == Adopt(declared, Included(declared, declared.Keys - left))
      decreases left
    {
      var id :| id in left;
      g := AdoptAll(declared, g, declared[id].includes, Included(declared, declared.Keys - left));
      IncludedMore(declared, declared.Keys - left, id);
      assert declared.Keys - (left - {id}) == declared.Keys - left + {id};
      left := left - {id};
    }
    assert declared.Keys - left == declared.Keys;
  }

  lemma IncludedMore(declared: Graph, ids: set<string>, id: string)
    requires id in declared
    ensures Included(declared, ids + {id}) == Included(declared, ids) + Elements(declared[id].includes)
  {
  }

  lemma AdoptNone(declared: Graph)
    ensures Included(declared, {}) == {} && Adopt(declared, {}) == declared
  {
  }

  /** adoptDirectoryGroups: first what groups include, then what rules name. */
  method AdoptDirectoryGroups(declared: Graph, rules: seq<Policy.Rule>) returns (g: Graph)
    ensures g == Adopt(declared, Mentioned(declared, rules))
  {
    g := AdoptIncluded(declared);
    TakeNone(rules);
    MentionedNone(declared);
    for i := 0 to |rules|
      invariant g == Adopt(declared, Mentioned(declared, rules[..i]))
    {
      g := AdoptAll(declared, g, NamedIn(rules[i]), Mentioned(declared, rules[..i]));
      MentionedMore(declared, rules[..i], rules[i]);
      TakeOneMore(rules, i);
    }
    TakeAll(rules);
  }

  lemma MentionedNone(declared: Graph)
    ensures Mentioned(declared, []) == Included(declared, declared.Keys)
  {
  }

  lemma MentionedMore(declared: Graph, front: seq<Policy.Rule>, r: Policy.Rule)
    ensures Mentioned(declared, front + [r]) == Mentioned(declared, front) + Elements(NamedIn(r))
  {
    NamedMore(front, r);
  }

  lemma NamedMore(front: seq<Policy.Rule>, r: Policy.Rule)
    ensures Named(front + [r]) == Named(front) + Elements(NamedIn(r))
  {
    var rules := front + [r];
    forall id ensures id in Named(rules) <==> id in Named(front) || id in NamedIn(r) {
      assert rules[|front|] == r;
      if k :| 0 <= k < |front| && id in NamedIn(front[k]) {
        assert rules[k] == front[k];
      }
    }
  }

  /** The group half of Compile. */
  method CompileGroups(users: set<string>, declared: Graph, rules: seq<Policy.Rule>) returns (r: Result<map<string, seq<string>>, string>)
    ensures var g := Adopt(declared, Mentioned(declared, rules));
      && (r.Success? <==> ReferencesOk(users, g) && !HasCycle(g))
      && (r.Success? ==> Resolved(users, g, r.value))
  {
    var g := AdoptDirectoryGroups(declared, rules);
    if !ReferencesOk(users, g) {
      return Failure("unknown user or group");
    }
    r := ResolveMemberships(users, g);
  }

  /** An adopted group is a narrowing: nobody belongs to it, and nobody's other
      groups change because of it. */
  lemma AdoptedGrantsNothing(declared: Graph, mentioned: set<string>, user: string, id: string)
    ensures Belongs(Adopt(declared, mentioned), user, id) <==> id in declared && Belongs(declared, user, id)
  {
    var g := Adopt(declared, mentioned);
    if Belongs(g, user, id) {
      var d :| d in g && user in g[d].members && Above(g, id, d);
      var p :| Chain(g, p) && p[0] == id && p[|p| - 1] == d;
      forall i, j | 0 <= i < j < |p| && j == i + 1 ensures Edge(declared, p[i], p[j]) {
        assert Edge(g, p[i], p[i + 1]);
      }
      assert Chain(declared, p);
      assert Above(declared, id, d);
      assert |p| > 1 ==> Edge(declared, p[0], p[1]);
    }
    if id in declared && Belongs(declared, user, id) {
      var d :| d in declared && user in declared[d].members && Above(declared, id, d);
      var p :| Chain(declared, p) && p[0] == id && p[|p| - 1] == d;
      forall i, j | 0 <= i < j < |p| && j == i + 1 ensures Edge(g, p[i], p[j]) {
        assert Edge(declared, p[i], p[i + 1]);
      }
      assert Chain(g, p);
      assert Above(g, id, d);
    }
  }
}
