/** The pull projection cache: an LRU with a time to live, and why a hit is what
    recomputing would have produced. */
module PullCache {
  import opened Core
  import opened Encoding

  datatype Key = Key(repository: string, from: string, to: string, profile: string)

  /** The descriptor of a stored projection; no patch when nothing was readable. */
  datatype Entry = Entry(patch: Option<string>, total: nat, delivered: nat, withheld: nat)

  datatype Record = Record(entry: Entry, expires: int)

  /** The index, and the recency list with the most recent first. */
  datatype State = State(entries: map<string, Record>, order: seq<string>)

  const EMPTY := State(map[], [])

  function KeyHash(hash: string -> string, k: Key): string {
    hash(Encode([k.repository, k.from, k.to, k.profile]))
  }

  /** Every field takes part in a key's identity. */
  lemma KeyHashInjective(hash: string -> string, a: Key, b: Key)
    requires Injective(hash) && KeyHash(hash, a) == KeyHash(hash, b)
    ensures a == b
  {
    var p, q := [a.repository, a.from, a.to, a.profile], [b.repository, b.from, b.to, b.profile];
    EncodeInjective(p, q);
    assert p[0] == q[0] && p[1] == q[1] && p[2] == q[2] && p[3] == q[3];
  }

  // ---------------------------------------------------------------- specification

  function Without(order: seq<string>, key: string): seq<string> {
    if order == [] then []
    else if order[0] == key then Without(order[1..], key)
    else [order[0]] + Without(order[1..], key)
  }

  ghost predicate NoDuplicates(order: seq<string>) {
    forall i, j :: 0 <= i < j < |order| ==> order[i] != order[j]
  }

  /** The index and the recency list hold the same keys, within the limit. */
  ghost predicate Consistent(c: State, max: nat) {
    && NoDuplicates(c.order)
    && (forall k :: k in c.order <==> k in c.entries)
    && |c.order| <= max
  }

  function Removed(c: State, key: string): State {
    State(c.entries - {key}, Without(c.order, key))
  }

  /** The first locked section of Get. */
  function LookedUp(c: State, key: string, now: int): (State, Option<Entry>) {
    if key !in c.entries then (c, None)
    else if c.entries[key].expires <= now then (Removed(c, key), None)
    else (c.(order := [key] + Without(c.order, key)), Some(c.entries[key].entry))
  }

  /** The second: the blob behind the entry is gone. */
  function Forgotten(c: State, key: string): State {
    if key in c.entries then Removed(c, key) else c
  }

  /** Neither adds an entry, and what is found is an entry there was. */
  lemma LookingAddsNothing(c: State, key: string, now: int)
    ensures var (c', found) := LookedUp(c, key, now);
      && (forall k :: k in c'.entries ==> k in c.entries && c'.entries[k] == c.entries[k])
      && (forall k :: k in Forgotten(c', key).entries ==> k in c.entries && Forgotten(c', key).entries[k] == c.entries[k])
      && (found.Some? ==> key in c.entries && found.value == c.entries[key].entry)
  {
  }

  function Trimmed(c: State, max: nat): State
    decreases |c.order|
  {
    if |c.order| <= max then c
    else Trimmed(State(c.entries - {c.order[|c.order| - 1]}, c.order[..|c.order| - 1]), max)
  }

  function Stored(c: State, key: string, entry: Entry, now: int, ttl: int, max: nat): State {
    var entries := c.entries[key := Record(entry, now + ttl)];
    if key in c.entries then State(entries, [key] + Without(c.order, key))
    else Trimmed(State(entries, [key] + c.order), max)
  }

  lemma {:induction false} WithoutIs(order: seq<string>, key: string)
    ensures forall k :: k in Without(order, key) <==> k in order && k != key
    ensures NoDuplicates(order) ==> NoDuplicates(Without(order, key))
    ensures |Without(order, key)| <= |order|
    ensures key in order ==> |Without(order, key)| < |order|
  {
    if order != [] {
      var rest := order[1..];
      WithoutIs(rest, key);
      assert order == [order[0]] + rest;
      assert NoDuplicates(order) ==> NoDuplicates(rest);
      if NoDuplicates(order) && order[0] != key {
        assert order[0] !in rest;
        assert order[0] !in Without(rest, key);
      }
    }
  }

  lemma FrontStays(order: seq<string>, key: string)
    requires NoDuplicates(order) && key !in order
    ensures NoDuplicates([key] + order) && forall k :: k in [key] + order <==> k == key || k in order
  {
  }

  lemma RemovedConsistent(c: State, key: string, max: nat)
    requires Consistent(c, max)
    ensures Consistent(Removed(c, key), max)
  {
    WithoutIs(c.order, key);
  }

  lemma MovedToFront(c: State, key: string, max: nat)
    requires Consistent(c, max) && key in c.entries
    ensures Consistent(c.(order := [key] + Without(c.order, key)), max)
  {
    WithoutIs(c.order, key);
    FrontStays(Without(c.order, key), key);
  }

  lemma {:induction false} TrimmedConsistent(c: State, max: nat)
    requires Consistent(c, max + 1)
    ensures Consistent(Trimmed(c, max), max)
    ensures forall k :: k in Trimmed(c, max).entries ==> k in c.entries && Trimmed(c, max).entries[k] == c.entries[k]
  {
    if |c.order| > max {
      var n := |c.order| - 1;
      var last, front := c.order[n], c.order[..n];
      assert c.order == front + [last];
      assert last !in front;
      assert Trimmed(c, max) == State(c.entries - {last}, front);
    }
  }

  lemma StoredConsistent(c: State, key: string, entry: Entry, now: int, ttl: int, max: nat)
    requires Consistent(c, max)
    ensures Consistent(Stored(c, key, entry, now, ttl, max), max)
    ensures var c' := Stored(c, key, entry, now, ttl, max);
      forall k :: k in c'.entries ==>
        if k == key then c'.entries[k] == Record(entry, now + ttl) else k in c.entries && c'.entries[k] == c.entries[k]
  {
    var entries := c.entries[key := Record(entry, now + ttl)];
    if key in c.entries {
      MovedToFront(c, key, max);
    } else {
      FrontStays(c.order, key);
      TrimmedConsistent(State(entries, [key] + c.order), max);
    }
  }

  // ---------------------------------------------------------------- runs

  /** Get's two sections and Put, by any number of pulls, in any order and at any times. */
  datatype Op =
    | Lookup(key: string, now: int)
    | Forget(key: string)
    | Store(key: string, entry: Entry, now: int)

  /** The cache, and what was last put under each key and when. */
  datatype Log = Log(cache: State, last: map<string, (Entry, int)>)

  function Exec(s: Log, op: Op, ttl: int, max: nat): Log {
    match op
    case Lookup(key, now) => s.(cache := LookedUp(s.cache, key, now).0)
    case Forget(key) => s.(cache := Forgotten(s.cache, key))
    case Store(key, entry, now) => Log(Stored(s.cache, key, entry, now, ttl, max), s.last[key := (entry, now)])
  }

  ghost function RunOps(s: Log, ops: seq<Op>, ttl: int, max: nat): Log
    decreases |ops|
  {
    if ops == [] then s else RunOps(Exec(s, ops[0], ttl, max), ops[1..], ttl, max)
  }

  ghost predicate Honest(s: Log, ttl: int, max: nat) {
    && Consistent(s.cache, max)
    && forall k :: k in s.cache.entries ==>
         k in s.last && s.cache.entries[k] == Record(s.last[k].0, s.last[k].1 + ttl)
  }

  lemma LookedUpConsistent(c: State, key: string, now: int, max: nat)
    requires Consistent(c, max)
    ensures Consistent(LookedUp(c, key, now).0, max)
  {
    RemovedConsistent(c, key, max);
    if key in c.entries { MovedToFront(c, key, max); }
  }

  lemma ExecKeepsHonest(s: Log, op: Op, ttl: int, max: nat)
    requires Honest(s, ttl, max)
    ensures Honest(Exec(s, op, ttl, max), ttl, max)
  {
    match op
    case Lookup(key, now) =>
      LookedUpConsistent(s.cache, key, now, max);
      LookingAddsNothing(s.cache, key, now);
    case Forget(key) => RemovedConsistent(s.cache, key, max);
    case Store(key, entry, now) => StoredConsistent(s.cache, key, entry, now, ttl, max);
  }

  lemma {:induction false} RunKeepsHonest(s: Log, ops: seq<Op>, ttl: int, max: nat)
    requires Honest(s, ttl, max)
    ensures Honest(RunOps(s, ops, ttl, max), ttl, max)
    decreases |ops|
  {
    if ops != [] {
      ExecKeepsHonest(s, ops[0], ttl, max);
      RunKeepsHonest(Exec(s, ops[0], ttl, max), ops[1..], ttl, max);
    }
  }

  /** In every run: the index and the recency list agree and stay within the limit,
      and a hit is the last entry put under that key, less than ttl ago. */
  lemma HitIsLastPut(ops: seq<Op>, ttl: int, max: nat, key: string, now: int)
    ensures var s := RunOps(Log(EMPTY, map[]), ops, ttl, max);
      && Consistent(s.cache, max)
      && var hit := LookedUp(s.cache, key, now).1;
         hit.Some? ==> key in s.last && hit.value == s.last[key].0 && now < s.last[key].1 + ttl
  {
    RunKeepsHonest(Log(EMPTY, map[]), ops, ttl, max);
  }

  // ---------------------------------------------------------------- the cache

  const DEFAULT_ENTRIES: nat := 1024

  // ---------------------------------------------------------------- what stays in the cache

  lemma TrimmedByOne(c: State, max: nat)
    requires Consistent(c, max + 1)
    ensures Trimmed(c, max) == if |c.order| <= max then c else State(c.entries - {c.order[max]}, c.order[..max])
  {
  }

  /** A new key pushes out the least recently used one, and only when the cache is full. */
  lemma EvictsLeastRecent(c: State, key: string, entry: Entry, now: int, ttl: int, max: nat)
    requires Consistent(c, max) && max > 0 && key !in c.entries
    ensures var c' := Stored(c, key, entry, now, ttl, max);
      && c'.entries.Keys == (if |c.order| == max then c.entries.Keys - {c.order[max - 1]} else c.entries.Keys) + {key}
      && c'.order == [key] + (if |c.order| == max then c.order[..max - 1] else c.order)
  {
    var full := State(c.entries[key := Record(entry, now + ttl)], [key] + c.order);
    FrontStays(c.order, key);
    TrimmedByOne(full, max);
    if |c.order| == max {
      assert full.order[max] == c.order[max - 1] && full.order[..max] == [key] + c.order[..max - 1];
      assert c.order[max - 1] in c.order;
    }
  }

  /** What was just stored is found, for as long as it lives. */
  lemma StoredIsFound(c: State, key: string, entry: Entry, now: int, ttl: int, max: nat, later: int)
    requires Consistent(c, max) && max > 0
    ensures LookedUp(Stored(c, key, entry, now, ttl, max), key, later).1 == if later < now + ttl then Some(entry) else None
  {
    if key !in c.entries {
      EvictsLeastRecent(c, key, entry, now, ttl, max);
      StoredConsistent(c, key, entry, now, ttl, max);
    }
  }

  lemma {:induction false} WithoutIndex(order: seq<string>, key: string, i: nat) returns (j: nat)
    requires i < |order| && order[i] != key
    ensures j <= i && j < |Without(order, key)| && Without(order, key)[j] == order[i]
  {
    if i == 0 {
      j := 0;
    } else {
      j := WithoutIndex(order[1..], key, i - 1);
      if order[0] != key {
        j := j + 1;
      }
    }
  }

  /** The key has at most i more recent ones before it. */
  ghost predicate Among(c: State, key: string, i: nat) {
    key in c.entries && exists j :: 0 <= j <= i && j < |c.order| && c.order[j] == key
  }

  lemma AmongRemoved(c: State, other: string, key: string, i: nat)
    requires Among(c, key, i) && other != key
    ensures Among(Removed(c, other), key, i) && Removed(c, other).entries[key] == c.entries[key]
  {
    var j :| 0 <= j <= i && j < |c.order| && c.order[j] == key;
    var k := WithoutIndex(c.order, other, j);
  }

  lemma AmongMoved(c: State, other: string, key: string, i: nat)
    requires Among(c, key, i) && other != key
    ensures Among(c.(order := [other] + Without(c.order, other)), key, i + 1)
  {
    var j :| 0 <= j <= i && j < |c.order| && c.order[j] == key;
    var k := WithoutIndex(c.order, other, j);
    assert ([other] + Without(c.order, other))[k + 1] == key;
  }

  lemma AmongStored(c: State, other: string, entry: Entry, now: int, ttl: int, max: nat, key: string, i: nat)
    requires Consistent(c, max) && Among(c, key, i) && other != key && i + 1 < max
    ensures var c' := Stored(c, other, entry, now, ttl, max); Among(c', key, i + 1) && c'.entries[key] == c.entries[key]
  {
    if other in c.entries {
      AmongMoved(c, other, key, i);
    } else {
      AmongPushed(c, other, entry, now, ttl, max, key, i);
    }
  }

  lemma AmongPushed(c: State, other: string, entry: Entry, now: int, ttl: int, max: nat, key: string, i: nat)
    requires Consistent(c, max) && Among(c, key, i) && other !in c.entries && i + 1 < max
    ensures var c' := Stored(c, other, entry, now, ttl, max); Among(c', key, i + 1) && c'.entries[key] == c.entries[key]
  {
    var j :| 0 <= j <= i && j < |c.order| && c.order[j] == key;
    var c' := Stored(c, other, entry, now, ttl, max);
    StoredConsistent(c, other, entry, now, ttl, max);
    EvictsLeastRecent(c, other, entry, now, ttl, max);
    assert c'.order[j + 1] == key;
    assert key in c'.order;
  }

  /** Any step for another key moves it back by one at most. */
  lemma OthersPushBackByOne(c: State, op: Op, ttl: int, max: nat, key: string, i: nat)
    requires Consistent(c, max) && Among(c, key, i) && op.key != key && i + 1 < max
    ensures var c' := Exec(Log(c, map[]), op, ttl, max).cache;
      Consistent(c', max) && Among(c', key, i + 1) && c'.entries[key] == c.entries[key]
  {
    if op.Store? {
      StoredConsistent(c, op.key, op.entry, op.now, ttl, max);
      AmongStored(c, op.key, op.entry, op.now, ttl, max, key, i);
    } else {
      RemovedConsistent(c, op.key, max);
      AmongRemoved(c, op.key, key, i);
      AmongMoved(c, op.key, key, i);
      if op.key in c.entries {
        MovedToFront(c, op.key, max);
      }
    }
  }

  ghost function CacheRun(c: State, ops: seq<Op>, ttl: int, max: nat): State
    decreases |ops|
  {
    if ops == [] then c else CacheRun(Exec(Log(c, map[]), ops[0], ttl, max).cache, ops[1..], ttl, max)
  }

  lemma {:induction false} RecentStays(c: State, ops: seq<Op>, ttl: int, max: nat, key: string, i: nat)
    requires Consistent(c, max) && Among(c, key, i) && i + |ops| < max
    requires forall n :: 0 <= n < |ops| ==> ops[n].key != key
    ensures var c' := CacheRun(c, ops, ttl, max); key in c'.entries && c'.entries[key] == c.entries[key]
    decreases |ops|
  {
    if ops != [] {
      OthersPushBackByOne(c, ops[0], ttl, max, key, i);
      RecentStays(Exec(Log(c, map[]), ops[0], ttl, max).cache, ops[1..], ttl, max, key, i + 1);
    }
  }

  /** The cache keeps what is recent: what was stored is still found after fewer than max
      steps for other keys, looking up, dropping and storing in any order, while it lives. */
  lemma RecentIsFound(c: State, key: string, entry: Entry, now: int, ops: seq<Op>, ttl: int, max: nat, later: int)
    requires Consistent(c, max) && |ops| < max && later < now + ttl
    requires forall n :: 0 <= n < |ops| ==> ops[n].key != key
    ensures LookedUp(CacheRun(Stored(c, key, entry, now, ttl, max), ops, ttl, max), key, later).1 == Some(entry)
  {
    StoredConsistent(c, key, entry, now, ttl, max);
    StoredIsFirst(c, key, entry, now, ttl, max);
    RecentStays(Stored(c, key, entry, now, ttl, max), ops, ttl, max, key, 0);
  }

  lemma StoredIsFirst(c: State, key: string, entry: Entry, now: int, ttl: int, max: nat)
    requires Consistent(c, max) && max > 0
    ensures var c' := Stored(c, key, entry, now, ttl, max); Among(c', key, 0) && c'.entries[key] == Record(entry, now + ttl)
  {
    StoredConsistent(c, key, entry, now, ttl, max);
    if key !in c.entries {
      EvictsLeastRecent(c, key, entry, now, ttl, max);
    }
    assert Stored(c, key, entry, now, ttl, max).order[0] == key;
  }

  class Cache {
    const ttl: int
    const max: nat
    var entries: map<string, Record>
    var order: seq<string>

    ghost function Now(): State
      reads this
    {
      State(entries, order)
    }

    ghost predicate Valid()
      reads this
    {
      Consistent(Now(), max)
    }

    constructor (ttl: int)
      ensures Valid() && Now() == EMPTY && this.ttl == ttl && max == DEFAULT_ENTRIES
    {
      this.ttl, max := ttl, DEFAULT_ENTRIES;
      entries, order := map[], [];
    }

    method Remove(key: string)
      modifies this
      ensures Now() == Removed(old(Now()), key)
    {
      entries := entries - {key};
      order := Without(order, key);
    }

    /** `blobGone` is what Stat answers about the entry's patch. */
    method Get(key: string, now: int, blobGone: string -> bool) returns (hit: Option<Entry>)
      requires Valid()
      modifies this
      ensures Valid()
      ensures ttl <= 0 ==> hit.None? && Now() == old(Now())
      ensures ttl > 0 ==>
        var (c, found) := LookedUp(old(Now()), key, now);
        if found.Some? && found.value.patch.Some? && blobGone(found.value.patch.value)
        then hit.None? && Now() == Forgotten(c, key)
        else hit == found && Now() == c
    {
      if ttl <= 0 { return None; }
      if key !in entries { return None; }
      if entries[key].expires <= now {
        RemovedConsistent(Now(), key, max);
        Remove(key);
        return None;
      }
      MovedToFront(Now(), key, max);
      order := [key] + Without(order, key);
      var entry := entries[key].entry;
      if entry.patch.Some? && blobGone(entry.patch.value) {
        RemovedConsistent(Now(), key, max);
        Remove(key);
        return None;
      }
      hit := Some(entry);
    }

    method Put(key: string, entry: Entry, now: int)
      requires Valid()
      modifies this
      ensures Valid()
      ensures Now() == if ttl <= 0 then old(Now()) else Stored(old(Now()), key, entry, now, ttl, max)
    {
      if ttl <= 0 { return; }
      StoredConsistent(Now(), key, entry, now, ttl, max);
      if key in entries {
        entries := entries[key := Record(entry, now + ttl)];
        order := [key] + Without(order, key);
        return;
      }
      order := [key] + order;
      entries := entries[key := Record(entry, now + ttl)];
      while |order| > max
        invariant Trimmed(Now(), max) == Stored(old(Now()), key, entry, now, ttl, max)
        decreases |order|
      {
        entries := entries - {order[|order| - 1]};
        order := order[..|order| - 1];
      }
    }
  }
}
