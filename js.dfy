/** The pieces of the JavaScript runtime the scripts rely on: how an integer is rendered
    into a template literal, the insertion order of a `Map`, and the order in which
    `Object.keys` / `Object.entries` list the keys of a plain object. */
module Js {
  import opened Orders
  import opened Seqs

  function DigitChar(d: nat): (c: char)
    requires d < 10
    ensures '0' <= c <= '9'
  {
    "0123456789"[d]
  }

  function DigitValue(c: char): (d: nat)
    requires '0' <= c <= '9'
    ensures d < 10 && DigitChar(d) == c
  {
    (c as int - '0' as int) as nat
  }

  predicate AllDigits(s: string) {
    forall i :: 0 <= i < |s| ==> '0' <= s[i] <= '9'
  }

  /** Decimal digits of a natural number, without leading zeros. */
  function Digits(n: nat): (r: string)
    ensures |r| > 0 && AllDigits(r)
    ensures r[0] != '0' || n == 0
  {
    if n < 10 then [DigitChar(n)] else Digits(n / 10) + [DigitChar(n % 10)]
  }

  /** The number a string of decimal digits stands for. */
  function ParseDigits(s: string): nat
    requires AllDigits(s)
  {
    if s == [] then 0 else ParseDigits(s[..|s| - 1]) * 10 + DigitValue(s[|s| - 1])
  }

  /** Parsing undoes rendering. */
  lemma {:induction false} DigitsRoundTrip(n: nat)
    ensures ParseDigits(Digits(n)) == n
  {
    if n >= 10 {
      var s := Digits(n);
      assert s[..|s| - 1] == Digits(n / 10);
      DigitsRoundTrip(n / 10);
    } else {
      assert DigitValue(DigitChar(n)) == n by {
        assert "0123456789"[n] as int == '0' as int + n;
      }
    }
  }

  /** How `${n}` renders an integer: an optional minus sign, then its digits. */
  function Decimal(n: int): (r: string)
    ensures |r| > 0
    ensures r[0] == '-' <==> n < 0
  {
    if n < 0 then "-" + Digits(-n) else Digits(n)
  }

  lemma DigitsInjective(a: nat, b: nat)
    requires Digits(a) == Digits(b)
    ensures a == b
  {
    DigitsRoundTrip(a);
    DigitsRoundTrip(b);
  }

  /** Distinct integers render differently. */
  lemma DecimalInjective(m: int, n: int)
    requires Decimal(m) == Decimal(n)
    ensures m == n
  {
    if m < 0 {
      assert n < 0;
      var dm, dn := Digits(-m), Digits(-n);
      assert ("-" + dm)[1..] == dm && ("-" + dn)[1..] == dn;
      DigitsInjective(-m, -n);
    } else {
      DigitsInjective(m, n);
    }
  }

  /** A property key that is the canonical decimal form of an array index (0 .. 2^32 - 2).
      `Object.keys` lists such keys first, in increasing numeric order. */
  predicate IsArrayIndex(s: string) {
    && |s| > 0
    && AllDigits(s)
    && (s[0] == '0' ==> |s| == 1)
    && ParseDigits(s) < 0xFFFF_FFFF
  }

  lemma ArrayIndexRendering(n: nat)
    requires n < 0xFFFF_FFFF
    ensures IsArrayIndex(Digits(n))
  {
    DigitsRoundTrip(n);
  }

  function IndexValue(s: string): int {
    if AllDigits(s) then ParseDigits(s) else 0
  }

  /** The array-index keys of `s`, in order. */
  function IndexKeys(s: seq<string>): (r: seq<string>)
    ensures forall k :: k in r <==> k in s && IsArrayIndex(k)
  {
    if s == [] then []
    else (if IsArrayIndex(s[0]) then [s[0]] else []) + IndexKeys(s[1..])
  }

  /** The other keys of `s`, in order. */
  function OtherKeys(s: seq<string>): (r: seq<string>)
    ensures forall k :: k in r <==> k in s && !IsArrayIndex(k)
  {
    if s == [] then []
    else (if IsArrayIndex(s[0]) then [] else [s[0]]) + OtherKeys(s[1..])
  }

  lemma {:induction false} SplitKeys(s: seq<string>)
    ensures multiset(IndexKeys(s)) + multiset(OtherKeys(s)) == multiset(s)
  {
    if s != [] {
      SplitKeys(s[1..]);
      assert s == [s[0]] + s[1..];
    }
  }

  /** The order of `Object.keys(o)` for a plain object `o` whose own string keys were created
      in the order `created`: array-index keys in increasing numeric order, then the other
      keys in creation order. */
  function ObjectKeys(created: seq<string>): (r: seq<string>)
    ensures multiset(r) == multiset(created)
  {
    SplitKeys(created);
    SortByKey(IndexKeys(created), IndexValue, IntLe) + OtherKeys(created)
  }

  /** `Object.keys` lists each key once, array indices ascending before all other keys. */
  lemma ObjectKeysOrder(created: seq<string>, i: nat, j: nat)
    requires i < j < |ObjectKeys(created)|
    ensures IsArrayIndex(ObjectKeys(created)[j]) ==>
              IsArrayIndex(ObjectKeys(created)[i]) &&
              IndexValue(ObjectKeys(created)[i]) <= IndexValue(ObjectKeys(created)[j])
  {
    var ix := SortByKey(IndexKeys(created), IndexValue, IntLe);
    IntLeIsTotalOrder();
    SortSorted(IndexKeys(created), IndexValue, IntLe);
    var r := ObjectKeys(created);
    assert r == ix + OtherKeys(created);
    if j >= |ix| {
      assert r[j] in OtherKeys(created);
    } else {
      assert r[j] == ix[j] && r[i] == ix[i];
      assert ix[i] in multiset(IndexKeys(created));
    }
  }

  /** The other keys are the keys that are not array indices. */
  lemma {:induction false} OtherKeysFilter(s: seq<string>)
    ensures OtherKeys(s) == WithKey(s, IsArrayIndex, false)
  {
    if s != [] {
      OtherKeysFilter(s[1..]);
    }
  }

  /** The other keys keep creation order: the key created at `p` is listed right after the
      other keys created before it. */
  lemma OtherKeysKeepOrder(created: seq<string>, p: nat, q: nat)
    requires p < q < |created|
    requires !IsArrayIndex(created[p]) && !IsArrayIndex(created[q])
    ensures var r := OtherKeys(created); var i, j := |OtherKeys(created[..p])|, |OtherKeys(created[..q])|;
      i < j < |r| && r[i] == created[p] && r[j] == created[q]
  {
    OtherKeysFilter(created);
    OtherKeysFilter(created[..p]);
    OtherKeysFilter(created[..p + 1]);
    OtherKeysFilter(created[..q]);
    WithKeyPosition(created, IsArrayIndex, false, p);
    WithKeyPosition(created, IsArrayIndex, false, q);
    WithKeyPrefixGrows(created, IsArrayIndex, false, p + 1, q);
  }

  /** In `Object.keys`, the keys that are not array indices come after all index keys, as
      `OtherKeys` lists them: in creation order (`OtherKeysKeepOrder`). */
  lemma ObjectKeysOthersLast(created: seq<string>)
    ensures |IndexKeys(created)| <= |ObjectKeys(created)|
    ensures ObjectKeys(created)[|IndexKeys(created)|..] == OtherKeys(created)
  {
    var ix := SortByKey(IndexKeys(created), IndexValue, IntLe);
    assert ObjectKeys(created) == ix + OtherKeys(created);
    assert (ix + OtherKeys(created))[|ix|..] == OtherKeys(created);
  }

  lemma {:induction false} DistinctMultiplicity<T>(s: seq<T>, x: T)
    requires Distinct(s)
    ensures multiset(s)[x] <= 1
  {
    if s != [] {
      assert Distinct(s[1..]) by {
        forall i, j | 0 <= i < j < |s| - 1 ensures s[1..][i] != s[1..][j] {
          assert s[1..][i] == s[i + 1] && s[1..][j] == s[j + 1];
        }
      }
      DistinctMultiplicity(s[1..], x);
      assert s == [s[0]] + s[1..];
      forall j | 0 <= j < |s| - 1 ensures s[1..][j] != s[0] {
        assert s[1..][j] == s[j + 1];
      }
    }
  }

  lemma TwoOccurrences<T>(s: seq<T>, i: nat, j: nat)
    requires i < j < |s|
    ensures s[i] == s[j] ==> multiset(s)[s[i]] >= 2
  {
    assert s == s[..j] + s[j..];
    assert s[i] in multiset(s[..j]);
    assert s[j] in multiset(s[j..]);
    assert multiset(s)[s[i]] == multiset(s[..j])[s[i]] + multiset(s[j..])[s[i]];
  }

  lemma MultiplicityDistinct<T>(s: seq<T>)
    requires forall x :: multiset(s)[x] <= 1
    ensures Distinct(s)
  {
    forall i, j | 0 <= i < j < |s| ensures s[i] != s[j] {
      TwoOccurrences(s, i, j);
    }
  }

  /** Rearranging a sequence without repetitions gives a sequence without repetitions. */
  lemma DistinctPermutation<T>(a: seq<T>, b: seq<T>)
    requires Distinct(a) && multiset(a) == multiset(b)
    ensures Distinct(b)
  {
    forall x ensures multiset(b)[x] <= 1 {
      DistinctMultiplicity(a, x);
    }
    MultiplicityDistinct(b);
  }

  /** The property names a plain object `{}` inherits from `Object.prototype`. Reading
      `o[k]` for such a `k` on a fresh object gives a function, or the prototype itself
      for "__proto__", rather than undefined. */
  const InheritedNames: set<string> := {
    "constructor", "__defineGetter__", "__defineSetter__", "hasOwnProperty",
    "__lookupGetter__", "__lookupSetter__", "isPrototypeOf", "propertyIsEnumerable",
    "toString", "valueOf", "__proto__", "toLocaleString" }

  /** A JavaScript `Map`: its entries, and the order in which their keys were first set. */
  datatype OrderedMap<K(==), V> = OrderedMap(keys: seq<K>, entries: map<K, V>) {

    ghost predicate Valid() {
      && Distinct(keys)
      && (forall k | k in entries :: k in keys)
      && (forall i | 0 <= i < |keys| :: keys[i] in entries)
    }

    /** `map.set(k, v)`: a new key goes to the end; an existing key keeps its place. */
    function Set(k: K, v: V): (r: OrderedMap<K, V>)
      requires Valid()
      ensures r.Valid()
      ensures r.entries == entries[k := v]
      ensures k in entries ==> r.keys == keys
      ensures k !in entries ==> r.keys == keys + [k]
    {
      if k in entries then OrderedMap(keys, entries[k := v])
      else
        assert Distinct(keys + [k]) by {
          forall i, j | 0 <= i < j < |keys| + 1 ensures (keys + [k])[i] != (keys + [k])[j] {
            if j == |keys| { assert keys[i] in entries; }
          }
        }
        OrderedMap(keys + [k], entries[k := v])
    }

    /** `map.values()`, in key order. */
    function Values(): (r: seq<V>)
      requires Valid()
      ensures |r| == |keys|
      ensures forall i :: 0 <= i < |keys| ==> r[i] == entries[keys[i]]
    {
      seq(|keys|, i requires 0 <= i < |keys| => entries[keys[i]])
    }
  }

  function EmptyMap<K(==), V>(): (r: OrderedMap<K, V>)
    ensures r.Valid() && r.keys == [] && r.entries == map[]
  {
    OrderedMap([], map[])
  }
}
