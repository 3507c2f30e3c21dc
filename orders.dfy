/** Orders on the values the scripts compare: strings, and the composite sort keys built from them. */
module Orders {

  /** A total order: reflexive, antisymmetric, transitive and total. */
  ghost predicate TotalOrder<K(!new)>(le: (K, K) -> bool) {
    && (forall a :: le(a, a))
    && (forall a, b :: le(a, b) && le(b, a) ==> a == b)
    && (forall a, b, c :: le(a, b) && le(b, c) ==> le(a, c))
    && (forall a, b :: le(a, b) || le(b, a))
  }

  /** Lexicographic order on strings, comparing characters by their code.
      This is the order of `Array.prototype.sort()` without a comparator, and the
      order the model uses wherever the scripts call `localeCompare`. */
  predicate StrLe(a: string, b: string)
    decreases |a|
  {
    if a == [] then true
    else if b == [] then false
    else if a[0] != b[0] then a[0] < b[0]
    else StrLe(a[1..], b[1..])
  }

  lemma {:induction false} StrLeReflexive(a: string)
    ensures StrLe(a, a)
    decreases |a|
  {
    if a != [] {
      StrLeReflexive(a[1..]);
    }
  }

  lemma {:induction false} StrLeAntisymmetric(a: string, b: string)
    requires StrLe(a, b) && StrLe(b, a)
    ensures a == b
    decreases |a|
  {
    if a != [] && b != [] {
      StrLeAntisymmetric(a[1..], b[1..]);
      assert a == [a[0]] + a[1..] && b == [b[0]] + b[1..];
    }
  }

  lemma {:induction false} StrLeTransitive(a: string, b: string, c: string)
    requires StrLe(a, b) && StrLe(b, c)
    ensures StrLe(a, c)
    decreases |a|
  {
    if a != [] && b != [] && c != [] && a[0] == b[0] && b[0] == c[0] {
      StrLeTransitive(a[1..], b[1..], c[1..]);
    }
  }

  lemma {:induction false} StrLeTotal(a: string, b: string)
    ensures StrLe(a, b) || StrLe(b, a)
    decreases |a|
  {
    if a != [] && b != [] && a[0] == b[0] {
      StrLeTotal(a[1..], b[1..]);
    }
  }

  lemma StrLeIsTotalOrder()
    ensures TotalOrder(StrLe)
  {
    forall a | true ensures StrLe(a, a) { StrLeReflexive(a); }
    forall a, b | StrLe(a, b) && StrLe(b, a) ensures a == b { StrLeAntisymmetric(a, b); }
    forall a, b, c | StrLe(a, b) && StrLe(b, c) ensures StrLe(a, c) { StrLeTransitive(a, b, c); }
    forall a, b | true ensures StrLe(a, b) || StrLe(b, a) { StrLeTotal(a, b); }
  }

  /** Compare first by the first string, and on a tie by the second: the comparator
      `(a.album || '').localeCompare(b.album || '') || (a.name || '').localeCompare(b.name || '')`. */
  predicate PairLe(p: (string, string), q: (string, string)) {
    if p.0 != q.0 then StrLe(p.0, q.0) else StrLe(p.1, q.1)
  }

  lemma PairLeIsTotalOrder()
    ensures TotalOrder(PairLe)
  {
    StrLeIsTotalOrder();
  }

  /** Larger number first, and on a tie the smaller string first: the comparator
      that returns `countB - countA`, or `nameA.localeCompare(nameB)` when the counts are equal. */
  predicate RankLe(p: (int, string), q: (int, string)) {
    if p.0 != q.0 then p.0 > q.0 else StrLe(p.1, q.1)
  }

  lemma RankLeIsTotalOrder()
    ensures TotalOrder(RankLe)
  {
    StrLeIsTotalOrder();
  }

  /** Ascending order on integers. */
  predicate IntLe(a: int, b: int) {
    a <= b
  }

  lemma IntLeIsTotalOrder()
    ensures TotalOrder(IntLe)
  {
  }
}
