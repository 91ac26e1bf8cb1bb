/** Filtering a sequence, and sizes of sets. */
module Collections {

  /** What passes, in order. */
  function Kept<T>(s: seq<T>, keep: T -> bool): seq<T> {
    if s == [] then [] else (if keep(s[0]) then [s[0]] else []) + Kept(s[1..], keep)
  }

  lemma Associates<T>(x: seq<T>, y: seq<T>, z: seq<T>)
    ensures x + (y + z) == x + y + z
  {
  }

  lemma {:induction false} KeptSnoc<T>(s: seq<T>, x: T, keep: T -> bool)
    ensures Kept(s + [x], keep) == Kept(s, keep) + if keep(x) then [x] else []
  {
    if s == [] {
      assert s + [x] == [x] && [x][1..] == [];
    } else {
      var first := if keep(s[0]) then [s[0]] else [];
      var last := if keep(x) then [x] else [];
      var all := s + [x];
      assert all[1..] == s[1..] + [x] && all[0] == s[0];
      KeptSnoc(s[1..], x, keep);
      assert Kept(all, keep) == first + Kept(all[1..], keep);
      Associates(first, Kept(s[1..], keep), last);
    }
  }

  lemma {:induction false} KeptAre<T>(s: seq<T>, keep: T -> bool)
    ensures forall x :: x in Kept(s, keep) <==> x in s && keep(x)
    ensures |Kept(s, keep)| <= |s|
  {
    if s != [] {
      KeptAre(s[1..], keep);
      assert s == [s[0]] + s[1..];
    }
  }

  lemma {:induction false} KeptAll<T>(s: seq<T>, keep: T -> bool)
    ensures |Kept(s, keep)| == |s| <==> forall x :: x in s ==> keep(x)
    ensures (forall x :: x in s ==> keep(x)) <==> Kept(s, keep) == s
  {
    if s != [] {
      KeptAre(s[1..], keep);
      KeptAll(s[1..], keep);
      assert s == [s[0]] + s[1..];
      assert s[0] in s;
    }
  }

  /** What passes and what does not make up the whole. */
  lemma {:induction false} KeptParts<T>(s: seq<T>, keep: T -> bool, drop: T -> bool)
    requires forall x :: x in s ==> (drop(x) <==> !keep(x))
    ensures |Kept(s, keep)| + |Kept(s, drop)| == |s|
  {
    if s != [] {
      assert s[0] in s;
      KeptParts(s[1..], keep, drop);
    }
  }

  lemma {:induction false} KeptSame<T>(s: seq<T>, a: T -> bool, b: T -> bool)
    requires forall x :: x in s ==> a(x) == b(x)
    ensures Kept(s, a) == Kept(s, b)
  {
    if s != [] {
      assert s[0] in s;
      KeptSame(s[1..], a, b);
    }
  }

  lemma KeptNone<T>(s: seq<T>, keep: T -> bool)
    ensures Kept(s, keep) == [] <==> forall x :: x in s ==> !keep(x)
  {
    KeptAre(s, keep);
    if Kept(s, keep) != [] {
      assert Kept(s, keep)[0] in Kept(s, keep);
    } else {
      forall x | x in s ensures !keep(x) {
        assert x !in Kept(s, keep);
      }
    }
  }

  lemma TakeNone<T>(s: seq<T>)
    ensures s[..0] == []
  {
  }

  lemma TakeAll<T>(s: seq<T>)
    ensures s[..|s|] == s
  {
  }

  lemma TakeOneMore<T>(s: seq<T>, i: nat)
    requires i < |s|
    ensures s[..i + 1] == s[..i] + [s[i]]
  {
  }

  lemma SubsetSmaller<T>(a: set<T>, b: set<T>)
    requires a <= b
    ensures |a| <= |b|
    ensures a != b ==> |a| < |b|
  {
    assert b == a + (b - a);
    if a != b { assert b - a != {}; }
  }
}
