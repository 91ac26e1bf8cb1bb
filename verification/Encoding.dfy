/** The length-prefixed encoding of string lists that profiles and cache keys
    hash, and its unique decodability. */
module Encoding {

  function Digit(d: nat): char
    requires d < 10
  {
    '0' + d as char
  }

  predicate IsDigit(c: char) {
    '0' <= c <= '9'
  }

  /** strconv.Itoa on a length or a position. */
  function Itoa(n: nat): (s: string)
    ensures s != "" && forall c :: c in s ==> IsDigit(c)
  {
    if n < 10 then [Digit(n)] else Itoa(n / 10) + [Digit(n % 10)]
  }

  ghost function Value(s: string): int {
    if s == "" then 0 else Value(s[..|s| - 1]) * 10 + (s[|s| - 1] as int - '0' as int)
  }

  lemma {:induction false} ValueOfItoa(n: nat)
    ensures Value(Itoa(n)) == n
  {
    var s := Itoa(n);
    if n >= 10 {
      ValueOfItoa(n / 10);
      assert s[..|s| - 1] == Itoa(n / 10);
    } else {
      assert s[..0] == "";
    }
  }

  lemma ItoaInjective(m: nat, n: nat)
    requires Itoa(m) == Itoa(n)
    ensures m == n
  {
    ValueOfItoa(m);
    ValueOfItoa(n);
  }

  function Field(s: string): string {
    Itoa(|s|) + ":" + s
  }

  function Encode(parts: seq<string>): string {
    if parts == [] then "" else Field(parts[0]) + Encode(parts[1..])
  }

  lemma ColonEnds(m: string, x: string, n: string, y: string)
    requires (forall c :: c in m ==> IsDigit(c)) && (forall c :: c in n ==> IsDigit(c))
    requires m + ":" + x == n + ":" + y
    ensures m == n && x == y
  {
    var s := m + ":" + x;
    assert s[|m|] == ':' && s[|n|] == ':';
    assert forall k :: 0 <= k < |m| ==> s[k] == m[k] && IsDigit(m[k]);
    assert forall k :: 0 <= k < |n| ==> s[k] == n[k] && IsDigit(n[k]);
    assert m == s[..|m|] && n == s[..|n|];
    assert x == s[|m| + 1..] && y == s[|n| + 1..];
  }

  /** The colon ends the length, so a field can be read off the front of anything. */
  lemma FieldReadsOff(a: string, x: string, b: string, y: string)
    requires Field(a) + x == Field(b) + y
    ensures a == b && x == y
  {
    var m, n := Itoa(|a|), Itoa(|b|);
    assert Field(a) + x == m + ":" + (a + x) && Field(b) + y == n + ":" + (b + y);
    ColonEnds(m, a + x, n, b + y);
    ItoaInjective(|a|, |b|);
    assert a == (a + x)[..|a|] && b == (b + y)[..|b|];
    assert x == (a + x)[|a|..] && y == (b + y)[|b|..];
  }

  /** Lists of any lengths: equal encodings mean equal lists. */
  lemma {:induction false} EncodeInjective(a: seq<string>, b: seq<string>)
    requires Encode(a) == Encode(b)
    ensures a == b
    decreases |a|
  {
    if a == [] || b == [] {
      assert forall parts :: parts == [] <==> Encode(parts) == "";
    } else {
      FieldReadsOff(a[0], Encode(a[1..]), b[0], Encode(b[1..]));
      EncodeInjective(a[1..], b[1..]);
      assert a == [a[0]] + a[1..] && b == [b[0]] + b[1..];
    }
  }

  lemma {:induction false} EncodeAppend(parts: seq<string>, s: string)
    ensures Encode(parts + [s]) == Encode(parts) + Field(s)
  {
    if parts == [] {
      assert parts + [s] == [s] && [s][1..] == [];
    } else {
      EncodeAppend(parts[1..], s);
      assert (parts + [s])[1..] == parts[1..] + [s];
    }
  }

  /** What is assumed of SHA-256: no two messages share a hash. */
  ghost predicate Injective(hash: string -> string) {
    forall a, b :: hash(a) == hash(b) ==> a == b
  }
}
