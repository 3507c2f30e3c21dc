/** Sequence operations shared by the three scripts: selecting the elements with a given
    key, and the stable sort that `Array.prototype.sort` performs with a comparator. */
module Seqs {
  import opened Orders

  /** The identity, used as the sort key when the elements are themselves the keys. */
  function Self<T>(x: T): T {
    x
  }

  /** No element occurs twice. */
  ghost predicate Distinct<T>(s: seq<T>) {
    forall i, j :: 0 <= i < j < |s| ==> s[i] != s[j]
  }

  lemma AppendAssoc<T>(a: seq<T>, b: seq<T>, c: seq<T>)
    ensures a + b + c == a + (b + c)
  {
  }

  lemma DistinctSnoc<T>(s: seq<T>, x: T)
    requires Distinct(s) && x !in s
    ensures Distinct(s + [x])
  {
    var t := s + [x];
    forall i, j | 0 <= i < j < |t| ensures t[i] != t[j] {
      assert t[i] == s[i];
      if j == |s| { assert t[j] == x; } else { assert t[j] == s[j]; }
    }
  }

  /** Dropping the last element of a sequence without repetitions leaves one without
      repetitions, which lacks that element. */
  lemma DistinctInit<T>(s: seq<T>)
    requires Distinct(s) && s != []
    ensures Distinct(s[..|s| - 1]) && s[|s| - 1] !in s[..|s| - 1]
  {
    var prefix := s[..|s| - 1];
    forall i, j | 0 <= i < j < |prefix| ensures prefix[i] != prefix[j] {
      assert prefix[i] == s[i] && prefix[j] == s[j];
    }
    forall i | 0 <= i < |prefix| ensures prefix[i] != s[|s| - 1] {
      assert prefix[i] == s[i];
    }
  }

  /** A sequence without repetitions has as many elements as the set of its elements. */
  lemma {:induction false} DistinctCard<T>(s: seq<T>)
    requires Distinct(s)
    ensures |set x | x in s| == |s|
  {
    if s != [] {
      var prefix, last := s[..|s| - 1], s[|s| - 1];
      assert Distinct(prefix) by {
        forall i, j | 0 <= i < j < |prefix| ensures prefix[i] != prefix[j] {
          assert prefix[i] == s[i] && prefix[j] == s[j];
        }
      }
      DistinctCard(prefix);
      assert last !in prefix by {
        forall i | 0 <= i < |prefix| ensures prefix[i] != last {
          assert prefix[i] == s[i];
        }
      }
      assert (set x | x in s) == (set x | x in prefix) + {last};
    }
  }

  /** The elements of `s` whose key is `k`, in their order in `s`. */
  function WithKey<T, K(==)>(s: seq<T>, key: T -> K, k: K): (r: seq<T>)
    ensures |r| <= |s|
    ensures forall x :: x in r ==> x in s && key(x) == k
    ensures forall x :: x in s && key(x) == k ==> x in r
  {
    if s == [] then []
    else (if key(s[0]) == k then [s[0]] else []) + WithKey(s[1..], key, k)
  }

  lemma {:induction false} WithKeyNone<T, K>(s: seq<T>, key: T -> K, k: K)
    requires forall x :: x in s ==> key(x) != k
    ensures WithKey(s, key, k) == []
  {
    if s != [] {
      assert forall x :: x in s[1..] ==> x in s;
      WithKeyNone(s[1..], key, k);
    }
  }

  lemma {:induction false} WithKeyAppend<T, K>(a: seq<T>, b: seq<T>, key: T -> K, k: K)
    ensures WithKey(a + b, key, k) == WithKey(a, key, k) + WithKey(b, key, k)
    decreases |a|
  {
    if a == [] {
      assert a + b == b;
    } else {
      assert (a + b)[1..] == a[1..] + b;
      WithKeyAppend(a[1..], b, key, k);
    }
  }

  /** Sorted: every element's key is at most the key of every later element. */
  ghost predicate SortedBy<T, K>(s: seq<T>, key: T -> K, le: (K, K) -> bool) {
    forall i, j :: 0 <= i < j < |s| ==> le(key(s[i]), key(s[j]))
  }

  /** Insert `x` in front of the first element whose key it does not exceed. */
  function Insert<T(==), K>(x: T, s: seq<T>, key: T -> K, le: (K, K) -> bool): (r: seq<T>)
    ensures |r| == |s| + 1
    ensures multiset(r) == multiset(s) + multiset{x}
  {
    if s == [] then [x]
    else if le(key(x), key(s[0])) then [x] + s
    else
      assert s == [s[0]] + s[1..];
      [s[0]] + Insert(x, s[1..], key, le)
  }

  /** Stable sort by key (insertion sort): the ordering `Array.prototype.sort` produces with a
      comparator that compares the keys, elements with equal keys keeping their input order. */
  function SortByKey<T(==), K>(s: seq<T>, key: T -> K, le: (K, K) -> bool): (r: seq<T>)
    ensures |r| == |s|
    ensures multiset(r) == multiset(s)
  {
    if s == [] then []
    else
      assert s == [s[0]] + s[1..];
      Insert(s[0], SortByKey(s[1..], key, le), key, le)
  }

  lemma {:induction false} InsertSorted<T, K(!new)>(x: T, s: seq<T>, key: T -> K, le: (K, K) -> bool)
    requires TotalOrder(le)
    requires SortedBy(s, key, le)
    ensures SortedBy(Insert(x, s, key, le), key, le)
    decreases |s|
  {
    if s != [] && !le(key(x), key(s[0])) {
      var t := Insert(x, s[1..], key, le);
      InsertSorted(x, s[1..], key, le);
      forall j | 0 <= j < |t| ensures le(key(s[0]), key(t[j])) {
        assert t[j] in multiset(t);
        if t[j] != x {
          assert t[j] in multiset(s[1..]);
          var m :| 0 <= m < |s[1..]| && s[1..][m] == t[j];
          assert s[m + 1] == t[j];
        }
      }
      var r := [s[0]] + t;
      forall i, j | 0 <= i < j < |r| ensures le(key(r[i]), key(r[j])) {
        if i > 0 {
          assert r[i] == t[i - 1] && r[j] == t[j - 1];
        } else {
          assert r[j] == t[j - 1];
        }
      }
    }
  }

  /** The sorted output is ordered by key. */
  lemma {:induction false} SortSorted<T, K(!new)>(s: seq<T>, key: T -> K, le: (K, K) -> bool)
    requires TotalOrder(le)
    ensures SortedBy(SortByKey(s, key, le), key, le)
    decreases |s|
  {
    if s != [] {
      SortSorted(s[1..], key, le);
      InsertSorted(s[0], SortByKey(s[1..], key, le), key, le);
    }
  }

  /** The element at `p` is the entry of `WithKey` that follows those taken from before `p`. */
  lemma WithKeyPosition<T, K>(s: seq<T>, key: T -> K, k: K, p: nat)
    requires p < |s| && key(s[p]) == k
    ensures var r, before := WithKey(s, key, k), WithKey(s[..p], key, k);
      |before| < |r| && r[|before|] == s[p] && |WithKey(s[..p + 1], key, k)| == |before| + 1
  {
    assert s[..p + 1] == s[..p] + [s[p]];
    assert s == s[..p + 1] + s[p + 1..];
    assert WithKey([s[p]], key, k) == [s[p]] by {
      assert [s[p]][1..] == [];
    }
    WithKeyAppend(s[..p], [s[p]], key, k);
    WithKeyAppend(s[..p + 1], s[p + 1..], key, k);
  }

  /** A longer prefix has at least as many entries with the key. */
  lemma WithKeyPrefixGrows<T, K>(s: seq<T>, key: T -> K, k: K, p: nat, q: nat)
    requires p <= q <= |s|
    ensures |WithKey(s[..p], key, k)| <= |WithKey(s[..q], key, k)|
  {
    assert s[..q] == s[..p] + s[p..q];
    WithKeyAppend(s[..p], s[p..q], key, k);
  }

  lemma WithKeyCons<T, K>(y: T, s: seq<T>, key: T -> K, k: K)
    ensures WithKey([y] + s, key, k) == (if key(y) == k then [y] else []) + WithKey(s, key, k)
  {
    assert ([y] + s)[1..] == s;
  }

  lemma {:induction false} InsertWithKey<T, K(!new)>(x: T, s: seq<T>, key: T -> K, le: (K, K) -> bool, k: K)
    requires forall a :: le(a, a)
    ensures WithKey(Insert(x, s, key, le), key, k) == WithKey([x] + s, key, k)
    decreases |s|
  {
    var r := Insert(x, s, key, le);
    if s == [] {
    } else if le(key(x), key(s[0])) {
    } else {
      var t := Insert(x, s[1..], key, le);
      InsertWithKey(x, s[1..], key, le, k);
      assert r == [s[0]] + t;
      assert s == [s[0]] + s[1..];
      WithKeyCons(s[0], t, key, k);
      WithKeyCons(x, s[1..], key, k);
      WithKeyCons(x, s, key, k);
      WithKeyCons(s[0], s[1..], key, k);
      // `x` passed over `s[0]`, so they have different keys and at most one of them is kept.
      assert key(x) != key(s[0]);
      var w := WithKey(s[1..], key, k);
      var none: seq<T> := [];
      assert none + w == w;
      if key(x) == k {
        assert WithKey(r, key, k) == none + ([x] + w);
        assert WithKey([x] + s, key, k) == [x] + (none + w);
      } else if key(s[0]) == k {
        assert WithKey(r, key, k) == [s[0]] + (none + w);
        assert WithKey([x] + s, key, k) == none + ([s[0]] + w);
      } else {
        assert WithKey(r, key, k) == none + (none + w);
        assert WithKey([x] + s, key, k) == none + (none + w);
      }
    }
  }

  /** Stability: the elements with any one key come out in the order they went in. */
  lemma {:induction false} SortStable<T, K(!new)>(s: seq<T>, key: T -> K, le: (K, K) -> bool, k: K)
    requires TotalOrder(le)
    ensures WithKey(SortByKey(s, key, le), key, k) == WithKey(s, key, k)
    decreases |s|
  {
    if s != [] {
      var t := SortByKey(s[1..], key, le);
      InsertWithKey(s[0], t, key, le, k);
      SortStable(s[1..], key, le, k);
      assert ([s[0]] + t)[1..] == t;
    }
  }

  lemma SortedFirstKey<T, K(!new)>(a: seq<T>, b: seq<T>, key: T -> K, le: (K, K) -> bool)
    requires TotalOrder(le)
    requires SortedBy(a, key, le) && SortedBy(b, key, le)
    requires a != [] && b != []
    requires forall k :: WithKey(a, key, k) == WithKey(b, key, k)
    ensures key(a[0]) == key(b[0])
  {
    var ka, kb := key(a[0]), key(b[0]);
    assert a[0] in WithKey(b, key, ka);
    var j :| 0 <= j < |b| && b[j] == a[0];
    assert le(kb, ka) by {
      if j > 0 { assert le(key(b[0]), key(b[j])); }
    }
    assert b[0] in WithKey(a, key, kb);
    var i :| 0 <= i < |a| && a[i] == b[0];
    assert le(ka, kb) by {
      if i > 0 { assert le(key(a[0]), key(a[i])); }
    }
  }

  lemma WithKeyTails<T, K>(a: seq<T>, b: seq<T>, key: T -> K)
    requires a != [] && b != [] && key(a[0]) == key(b[0])
    requires forall k :: WithKey(a, key, k) == WithKey(b, key, k)
    ensures a[0] == b[0]
    ensures forall k :: WithKey(a[1..], key, k) == WithKey(b[1..], key, k)
  {
    var k0 := key(a[0]);
    assert WithKey(a, key, k0)[0] == a[0];
    assert WithKey(b, key, k0)[0] == b[0];
    forall k ensures WithKey(a[1..], key, k) == WithKey(b[1..], key, k) {
      var wa, wb := WithKey(a[1..], key, k), WithKey(b[1..], key, k);
      if k0 == k {
        assert WithKey(a, key, k) == [a[0]] + wa;
        assert WithKey(b, key, k) == [b[0]] + wb;
        assert ([a[0]] + wa)[1..] == wa && ([b[0]] + wb)[1..] == wb;
      } else {
        assert WithKey(a, key, k) == [] + wa && WithKey(b, key, k) == [] + wb;
        assert [] + wa == wa && [] + wb == wb;
      }
    }
  }

  /** Two sequences sorted by the same key, which agree on the elements of every key,
      are the same sequence: a stable sort has exactly one possible outcome. */
  lemma {:induction false} SortedUnique<T, K(!new)>(a: seq<T>, b: seq<T>, key: T -> K, le: (K, K) -> bool)
    requires TotalOrder(le)
    requires SortedBy(a, key, le) && SortedBy(b, key, le)
    requires forall k :: WithKey(a, key, k) == WithKey(b, key, k)
    ensures a == b
    decreases |a|
  {
    if a != [] {
      assert a[0] in WithKey(b, key, key(a[0]));
    }
    if b != [] {
      assert b[0] in WithKey(a, key, key(b[0]));
    }
    if a != [] && b != [] {
      SortedFirstKey(a, b, key, le);
      WithKeyTails(a, b, key);
      assert SortedBy(a[1..], key, le) && SortedBy(b[1..], key, le) by {
        forall i, j | 0 <= i < j < |a| - 1 ensures le(key(a[1..][i]), key(a[1..][j])) {
          assert a[1..][i] == a[i + 1] && a[1..][j] == a[j + 1];
        }
        forall i, j | 0 <= i < j < |b| - 1 ensures le(key(b[1..][i]), key(b[1..][j])) {
          assert b[1..][i] == b[i + 1] && b[1..][j] == b[j + 1];
        }
      }
      SortedUnique(a[1..], b[1..], key, le);
      assert a == [a[0]] + a[1..] && b == [b[0]] + b[1..];
    }
  }

  /** In a sequence without repetitions, each value occurs at most once. */
  lemma {:induction false} WithSelfDistinct<T>(s: seq<T>, k: T)
    requires Distinct(s)
    ensures WithKey(s, Self, k) == if k in s then [k] else []
    decreases |s|
  {
    if s != [] {
      assert Distinct(s[1..]) by {
        forall i, j | 0 <= i < j < |s[1..]| ensures s[1..][i] != s[1..][j] {
          assert s[1..][i] == s[i + 1] && s[1..][j] == s[j + 1];
        }
      }
      WithSelfDistinct(s[1..], k);
      forall j | 0 <= j < |s[1..]| ensures s[1..][j] != s[0] {
        assert s[1..][j] == s[j + 1];
      }
      assert s[0] !in s[1..];
    }
  }

  /** Sorting two repetition-free sequences with the same elements gives the same result. */
  lemma SortSetUnique<T(!new)>(a: seq<T>, b: seq<T>, le: (T, T) -> bool)
    requires TotalOrder(le)
    requires Distinct(a) && Distinct(b)
    requires forall x :: x in a <==> x in b
    ensures SortByKey(a, Self, le) == SortByKey(b, Self, le)
  {
    var sa, sb := SortByKey(a, Self, le), SortByKey(b, Self, le);
    SortSorted(a, Self, le);
    SortSorted(b, Self, le);
    forall k ensures WithKey(sa, Self, k) == WithKey(sb, Self, k) {
      SortStable(a, Self, le, k);
      SortStable(b, Self, le, k);
      WithSelfDistinct(a, k);
      WithSelfDistinct(b, k);
    }
    SortedUnique(sa, sb, Self, le);
  }

  // ---------------------------------------------------------------------------
  // Keys joined by "@@"

  lemma SeparatorAt(n: string, r: string)
    requires '@' !in n
    ensures (n + "@@" + r)[|n|] == '@'
    ensures forall k :: 0 <= k < |n| ==> (n + "@@" + r)[k] != '@'
  {
    forall k | 0 <= k < |n| ensures (n + "@@" + r)[k] != '@' {
      assert (n + "@@" + r)[k] == n[k];
    }
  }

  /** A key `n@@r` whose first part has no '@' splits back into its parts in one way only. */
  lemma NoSeparatorSplit(n1: string, r1: string, n2: string, r2: string)
    requires '@' !in n1 && '@' !in n2
    requires n1 + "@@" + r1 == n2 + "@@" + r2
    ensures n1 == n2 && r1 == r2
  {
    var w := n1 + "@@" + r1;
    SeparatorAt(n1, r1);
    SeparatorAt(n2, r2);
    assert |n1| == |n2|;
    assert n1 == w[..|n1|] && n2 == w[..|n2|];
    assert r1 == w[|n1| + 2..] && r2 == w[|n2| + 2..];
  }
}
