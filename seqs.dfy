/** Sequence helpers shared by the model: occurrence counts, first-occurrence
    de-duplication (the key order of a Python dict built from a list) and
    filtering out a list of excluded names. */
module Seqs {

  /** No element occurs twice. */
  predicate NoDups(s: seq<string>) {
    forall i, j :: 0 <= i < j < |s| ==> s[i] != s[j]
  }

  /** The number of occurrences of `x` in `s`. */
  function Count(s: seq<string>, x: string): (n: nat)
    ensures n <= |s|
    ensures n > 0 <==> x in s
  {
    if s == [] then 0
    else
      assert s == s[..|s| - 1] + [s[|s| - 1]];
      Count(s[..|s| - 1], x) + (if s[|s| - 1] == x then 1 else 0)
  }

  /** The distinct elements of `s`, in the order of their first occurrence. */
  function Dedup(s: seq<string>): (d: seq<string>)
    ensures NoDups(d)
    ensures forall x :: x in d <==> x in s
    ensures |d| <= |s|
  {
    if s == [] then []
    else
      assert s == s[..|s| - 1] + [s[|s| - 1]];
      var d := Dedup(s[..|s| - 1]);
      if s[|s| - 1] in s[..|s| - 1] then d else d + [s[|s| - 1]]
  }

  /** The elements of `s` that are not in `excluded`, in their order. */
  function Without(s: seq<string>, excluded: seq<string>): (r: seq<string>)
    ensures forall x :: x in r <==> x in s && x !in excluded
    ensures NoDups(s) ==> NoDups(r)
    ensures |r| <= |s|
  {
    if s == [] then []
    else
      assert s == s[..|s| - 1] + [s[|s| - 1]];
      var r := Without(s[..|s| - 1], excluded);
      if s[|s| - 1] in excluded then r else r + [s[|s| - 1]]
  }

  /** The elements of `s` that are in `allowed`, in their order. */
  function Only(s: seq<string>, allowed: seq<string>): (r: seq<string>)
    ensures forall x :: x in r <==> x in s && x in allowed
    ensures NoDups(s) ==> NoDups(r)
  {
    if s == [] then []
    else
      assert s == s[..|s| - 1] + [s[|s| - 1]];
      var r := Only(s[..|s| - 1], allowed);
      if s[|s| - 1] in allowed then r + [s[|s| - 1]] else r
  }

  /** Extending a prefix of `s`, appended to `a`, by the next element of `s`. */
  lemma PrefixSnoc(a: seq<string>, s: seq<string>, j: nat)
    requires j < |s|
    ensures a + s[..j + 1] == (a + s[..j]) + [s[j]]
  {
    assert s[..j + 1] == s[..j] + [s[j]];
  }

  lemma {:induction false} CountAppend(a: seq<string>, b: seq<string>, x: string)
    ensures Count(a + b, x) == Count(a, x) + Count(b, x)
  {
    if b != [] {
      assert (a + b)[..|a + b| - 1] == a + b[..|b| - 1];
      CountAppend(a, b[..|b| - 1], x);
    } else {
      assert a + b == a;
    }
  }

  /** Appending elements that already occur leaves the first-occurrence order unchanged. */
  lemma {:induction false} DedupAbsorbs(a: seq<string>, b: seq<string>)
    requires forall x :: x in b ==> x in a
    ensures Dedup(a + b) == Dedup(a)
  {
    if b == [] {
      assert a + b == a;
    } else {
      var p := b[..|b| - 1];
      assert (a + b)[..|a + b| - 1] == a + p;
      assert b[|b| - 1] in b;
      DedupAbsorbs(a, p);
    }
  }

  /** A sequence without duplicates is its own first-occurrence order. */
  lemma {:induction false} DedupOfDistinct(s: seq<string>)
    requires NoDups(s)
    ensures Dedup(s) == s
  {
    if s != [] {
      var p := s[..|s| - 1];
      assert NoDups(p);
      DedupOfDistinct(p);
      assert s[|s| - 1] !in p;
      assert s == p + [s[|s| - 1]];
    }
  }

  /** A sequence without duplicates has as many elements as its set. */
  lemma {:induction false} CardOfDistinct(s: seq<string>)
    requires NoDups(s)
    ensures |set x | x in s| == |s|
  {
    if s != [] {
      var p := s[..|s| - 1];
      assert NoDups(p);
      CardOfDistinct(p);
      assert s == p + [s[|s| - 1]];
      assert s[|s| - 1] !in p;
      assert (set x | x in s) == (set x | x in p) + {s[|s| - 1]};
    }
  }
}
