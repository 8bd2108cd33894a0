/** Python's `list.sort(key=...)`: a stable sort on a key. Keys here are
    pairs compared lexicographically, as Python compares tuples; a
    descending sort (`reverse=True`, which Python keeps stable) is an
    ascending sort on the negated key. */
module Sorting {

  datatype Key = Key(major: int, minor: int)

  /** Lexicographic order on keys. */
  predicate KeyLe(a: Key, b: Key) {
    a.major < b.major || (a.major == b.major && a.minor <= b.minor)
  }

  predicate SortedBy<T>(s: seq<T>, key: T -> Key) {
    forall i, j :: 0 <= i < j < |s| ==> KeyLe(key(s[i]), key(s[j]))
  }

  /** The elements of `s` whose key is `k`, in their order in `s`. A sort is
      stable when it leaves every such class as it was. */
  function KeyClass<T>(s: seq<T>, key: T -> Key, k: Key): (c: seq<T>)
    ensures |c| <= |s|
  {
    if s == [] then []
    else (if key(s[0]) == k then [s[0]] else []) + KeyClass(s[1..], key, k)
  }

  /** Inserts `x` in front of the first element whose key is not below its own. */
  function Insert<T>(x: T, s: seq<T>, key: T -> Key): seq<T>
  {
    if s == [] then [x]
    else if KeyLe(key(x), key(s[0])) then [x] + s
    else [s[0]] + Insert(x, s[1..], key)
  }

  /** Insertion sort: a stable sort by `key`. */
  function SortByKey<T>(s: seq<T>, key: T -> Key): seq<T>
  {
    if s == [] then [] else Insert(s[0], SortByKey(s[1..], key), key)
  }

  lemma {:induction false} InsertPerm<T>(x: T, s: seq<T>, key: T -> Key)
    ensures multiset(Insert(x, s, key)) == multiset(s) + multiset{x}
  {
    if s != [] {
      assert s == [s[0]] + s[1..];
      if !KeyLe(key(x), key(s[0])) {
        InsertPerm(x, s[1..], key);
      }
    }
  }

  lemma {:induction false} InsertSorted<T>(x: T, s: seq<T>, key: T -> Key)
    requires SortedBy(s, key)
    ensures SortedBy(Insert(x, s, key), key)
  {
    if s != [] && !KeyLe(key(x), key(s[0])) {
      var t := s[1..];
      assert SortedBy(t, key);
      InsertSorted(x, t, key);
      InsertPerm(x, t, key);
      var r := Insert(x, t, key);
      forall j | 0 <= j < |r| ensures KeyLe(key(s[0]), key(r[j])) {
        assert r[j] in multiset(r);
        assert r[j] == x || r[j] in multiset(t);
        if r[j] != x {
          var m :| 0 <= m < |t| && t[m] == r[j];
          assert s[m + 1] == r[j];
        }
      }
    }
  }

  /** The sorted sequence is a permutation of the input. */
  lemma {:induction false} SortPerm<T>(s: seq<T>, key: T -> Key)
    ensures multiset(SortByKey(s, key)) == multiset(s)
    ensures |SortByKey(s, key)| == |s|
  {
    if s != [] {
      SortPerm(s[1..], key);
      InsertPerm(s[0], SortByKey(s[1..], key), key);
      assert s == [s[0]] + s[1..];
    }
  }

  /** The sorted sequence is ordered by `key`. */
  lemma {:induction false} SortSorted<T>(s: seq<T>, key: T -> Key)
    ensures SortedBy(SortByKey(s, key), key)
  {
    if s != [] {
      SortSorted(s[1..], key);
      InsertSorted(s[0], SortByKey(s[1..], key), key);
    }
  }

  lemma {:induction false} KeyClassAppend<T>(a: seq<T>, b: seq<T>, key: T -> Key, k: Key)
    ensures KeyClass(a + b, key, k) == KeyClass(a, key, k) + KeyClass(b, key, k)
  {
    if a != [] {
      assert (a + b)[1..] == a[1..] + b;
      KeyClassAppend(a[1..], b, key, k);
    } else {
      assert a + b == b;
    }
  }

  lemma {:induction false} KeyClassMembers<T>(s: seq<T>, key: T -> Key, k: Key, x: T)
    ensures x in KeyClass(s, key, k) <==> x in s && key(x) == k
  {
    if s != [] {
      assert s == [s[0]] + s[1..];
      KeyClassMembers(s[1..], key, k, x);
    }
  }

  lemma {:induction false} InsertKeyClass<T>(x: T, s: seq<T>, key: T -> Key, k: Key)
    ensures KeyClass(Insert(x, s, key), key, k)
         == if key(x) == k then [x] + KeyClass(s, key, k) else KeyClass(s, key, k)
  {
    if s == [] {
    } else if KeyLe(key(x), key(s[0])) {
      var r := [x] + s;
      assert r[0] == x && r[1..] == s;
    } else {
      var t := Insert(x, s[1..], key);
      InsertKeyClass(x, s[1..], key, k);
      var r := [s[0]] + t;
      assert r[0] == s[0] && r[1..] == t;
      assert KeyClass(r, key, k) == (if key(s[0]) == k then [s[0]] else []) + KeyClass(t, key, k);
      assert KeyClass(s, key, k) == (if key(s[0]) == k then [s[0]] else []) + KeyClass(s[1..], key, k);
      if key(x) == k {
        assert key(s[0]) != k;
      }
    }
  }

  /** The sort is stable: each key class keeps its order. */
  lemma {:induction false} SortStable<T>(s: seq<T>, key: T -> Key, k: Key)
    ensures KeyClass(SortByKey(s, key), key, k) == KeyClass(s, key, k)
  {
    if s != [] {
      SortStable(s[1..], key, k);
      InsertKeyClass(s[0], SortByKey(s[1..], key), key, k);
    }
  }

  lemma {:induction false} SortedHeadIsLeast<T>(s: seq<T>, key: T -> Key, x: T)
    requires SortedBy(s, key) && x in s
    ensures KeyLe(key(s[0]), key(x))
  {
    var j :| 0 <= j < |s| && s[j] == x;
    if j > 0 {
      assert KeyLe(key(s[0]), key(s[j]));
    }
  }

  lemma {:induction false} SortedTail<T>(s: seq<T>, key: T -> Key)
    requires s != [] && SortedBy(s, key)
    ensures SortedBy(s[1..], key)
  {
    forall i, j | 0 <= i < j < |s| - 1 ensures KeyLe(key(s[1..][i]), key(s[1..][j])) {
      assert s[1..][i] == s[i + 1] && s[1..][j] == s[j + 1];
    }
  }

  /** Two sequences ordered by key whose key classes agree start with the same element. */
  lemma {:induction false} SameHead<T>(a: seq<T>, b: seq<T>, key: T -> Key)
    requires a != [] && SortedBy(a, key) && SortedBy(b, key)
    requires forall k :: KeyClass(a, key, k) == KeyClass(b, key, k)
    ensures b != [] && a[0] == b[0]
  {
    var ka := key(a[0]);
    KeyClassMembers(a, key, ka, a[0]);
    assert a[0] in KeyClass(b, key, ka);
    KeyClassMembers(b, key, ka, a[0]);
    SortedHeadIsLeast(b, key, a[0]);
    var kb := key(b[0]);
    KeyClassMembers(b, key, kb, b[0]);
    assert b[0] in KeyClass(a, key, kb);
    KeyClassMembers(a, key, kb, b[0]);
    SortedHeadIsLeast(a, key, b[0]);
    assert ka == kb;
    assert KeyClass(a, key, ka) == [a[0]] + KeyClass(a[1..], key, ka);
    assert KeyClass(b, key, ka) == [b[0]] + KeyClass(b[1..], key, ka);
    assert KeyClass(a, key, ka) == KeyClass(b, key, ka);
    assert KeyClass(a, key, ka)[0] == a[0] && KeyClass(b, key, ka)[0] == b[0];
  }

  /** Being ordered by key and stable determines the result: any stable sort
      by the same key (Python's timsort among them) gives what
      `SortByKey` gives. */
  lemma {:induction false} StableSortUnique<T>(a: seq<T>, b: seq<T>, key: T -> Key)
    requires SortedBy(a, key) && SortedBy(b, key)
    requires forall k :: KeyClass(a, key, k) == KeyClass(b, key, k)
    ensures a == b
  {
    if a == [] {
      if b != [] {
        SameHead(b, a, key);
      }
    } else {
      SameHead(a, b, key);
      forall k ensures KeyClass(a[1..], key, k) == KeyClass(b[1..], key, k) {
        var p := if key(a[0]) == k then [a[0]] else [];
        assert KeyClass(a, key, k) == p + KeyClass(a[1..], key, k);
        assert KeyClass(b, key, k) == p + KeyClass(b[1..], key, k);
        assert KeyClass(a[1..], key, k) == (p + KeyClass(a[1..], key, k))[|p|..];
        assert KeyClass(b[1..], key, k) == (p + KeyClass(b[1..], key, k))[|p|..];
      }
      SortedTail(a, key);
      SortedTail(b, key);
      StableSortUnique(a[1..], b[1..], key);
      assert a == [a[0]] + a[1..] && b == [b[0]] + b[1..];
    }
  }
}
