/** `scripts/mergeTopSummary.js`: two lists of artist records are merged by `id` (a shallow
    merge, later records winning field by field) and the merged records are ranked by
    `count`, largest first, ties broken by `name`. */
module TopSummary {
  import opened Orders
  import opened Seqs
  import opened Js

  // ---------------------------------------------------------------------------
  // JSON values

  /** A value as `JSON.parse` returns it. Numbers are integers here. An object is a `Map`-like
      record of its own properties, keeping the order in which they were created. */
  datatype Json =
    | JNull
    | JBool(b: bool)
    | JNum(n: int)
    | JStr(s: string)
    | JArray(elems: seq<Json>)
    | JObject(obj: OrderedMap<string, Json>)

  type Object = OrderedMap<string, Json>

  /** Reading `o[name]`: a missing own property reads as `undefined`. */
  datatype Prop = Undefined | Value(json: Json)

  function Get(o: Object, name: string): Prop {
    if name in o.entries then Value(o.entries[name]) else Undefined
  }

  function EmptyObject(): (r: Object)
    ensures r.Valid() && r.keys == [] && r.entries == map[]
  {
    EmptyMap()
  }

  /** Every object among the items has as many property names as properties, as a parsed
      object does. */
  ghost predicate Parsed(items: seq<Json>) {
    forall i :: 0 <= i < |items| ==> items[i].JObject? ==> items[i].obj.Valid()
  }

  // ---------------------------------------------------------------------------
  // Object spread

  lemma ObjectKeysMembers(source: Object)
    requires source.Valid()
    ensures forall n :: n in ObjectKeys(source.keys) <==> n in source.entries
  {
    var names := ObjectKeys(source.keys);
    forall n ensures n in names <==> n in source.entries {
      assert n in names <==> n in multiset(names);
      assert n in source.keys <==> n in multiset(source.keys);
      if n in source.keys {
        var i :| 0 <= i < |source.keys| && source.keys[i] == n;
        assert source.keys[i] in source.entries;
      }
    }
  }

  /** The properties `names` of `source`, defined one after the other on `target`. */
  function CopyProps(target: Object, source: Object, names: seq<string>): (r: Object)
    requires target.Valid()
    requires forall n :: n in names ==> n in source.entries
    ensures r.Valid()
  {
    if names == [] then target
    else
      var last := names[|names| - 1];
      assert forall n :: n in names[..|names| - 1] ==> n in names;
      CopyProps(target, source, names[..|names| - 1]).Set(last, source.entries[last])
  }

  /** After the copy, a property of `names` has its value in `source`, any other property
      its value in `target`. */
  lemma {:induction false} CopyPropsEntry(target: Object, source: Object, names: seq<string>, n: string)
    requires target.Valid()
    requires forall n :: n in names ==> n in source.entries
    ensures var r := CopyProps(target, source, names);
      && (n in r.entries <==> n in target.entries || n in names)
      && (n in names ==> r.entries[n] == source.entries[n])
      && (n !in names && n in target.entries ==> r.entries[n] == target.entries[n])
  {
    if names != [] {
      var shorter := names[..|names| - 1];
      assert forall n :: n in shorter ==> n in names;
      assert n in names <==> n in shorter || n == names[|names| - 1];
      CopyPropsEntry(target, source, shorter, n);
    }
  }

  /** Copying every property of `source` overrides `target` with `source`. */
  lemma CopyAll(target: Object, source: Object, names: seq<string>)
    requires target.Valid()
    requires forall n :: n in names <==> n in source.entries
    ensures CopyProps(target, source, names).entries == target.entries + source.entries
  {
    var r, u := CopyProps(target, source, names), target.entries + source.entries;
    forall n ensures (n in r.entries <==> n in u) && (n in r.entries ==> r.entries[n] == u[n]) {
      CopyPropsEntry(target, source, names, n);
    }
    assert r.entries == u;
  }

  /** The copy keeps the properties of `target` first, in their order. */
  lemma {:induction false} CopyPropsKeys(target: Object, source: Object, names: seq<string>)
    requires target.Valid()
    requires forall n :: n in names ==> n in source.entries
    ensures var r := CopyProps(target, source, names);
      |target.keys| <= |r.keys| && r.keys[..|target.keys|] == target.keys
  {
    if names != [] {
      var shorter := names[..|names| - 1];
      assert forall n :: n in shorter ==> n in names;
      CopyPropsKeys(target, source, shorter);
      var before := CopyProps(target, source, shorter);
      var last := names[|names| - 1];
      if last !in before.entries {
        assert (before.keys + [last])[..|target.keys|] == before.keys[..|target.keys|];
      }
    }
  }

  /** `{ ...target, ...source }` with `target` already built: the own properties of `source`
      are defined in `Object.keys` order. A property of `source` wins; one only in `target`
      keeps its value and its place. */
  function Spread(target: Object, source: Object): (r: Object)
    requires target.Valid() && source.Valid()
    ensures r.Valid()
    ensures r.entries == target.entries + source.entries
    ensures |target.keys| <= |r.keys| && r.keys[..|target.keys|] == target.keys
  {
    ObjectKeysMembers(source);
    var names := ObjectKeys(source.keys);
    CopyPropsKeys(target, source, names);
    CopyAll(target, source, names);
    CopyProps(target, source, names)
  }

  // ---------------------------------------------------------------------------
  // The merged map

  /** A `Map` key. SameValueZero compares numbers, strings and booleans by value, but objects
      and arrays by identity: every one parsed from a file is a different value, named here
      by the position of its item in the two lists. */
  datatype IdKey = NumId(n: int) | StrId(s: string) | BoolId(b: bool) | RefId(position: int)

  /** `handleInsert`'s guards: the item must be a truthy object and its `id` neither
      `undefined` nor `null`. An array is an object, but has no own `id`. */
  predicate Insertable(item: Json) {
    item.JObject? && "id" in item.obj.entries && !item.obj.entries["id"].JNull?
  }

  /** The key `mergedMap` files an insertable item under, the item being at `position`. */
  function ItemKey(item: Json, position: int): IdKey
    requires Insertable(item)
  {
    match item.obj.entries["id"]
    case JNum(n) => NumId(n)
    case JStr(s) => StrId(s)
    case JBool(b) => BoolId(b)
    case _ => RefId(position)
  }

  /** Every value of the map is a well-formed object. */
  ghost predicate Stored(m: OrderedMap<IdKey, Object>) {
    m.Valid() && forall k | k in m.entries :: m.entries[k].Valid()
  }

  /** The state of `mergedMap` after `handleInsert(item)`, for the item at `position`. */
  function Absorb(m: OrderedMap<IdKey, Object>, item: Json, position: int): (r: OrderedMap<IdKey, Object>)
    requires Stored(m)
    requires item.JObject? ==> item.obj.Valid()
    ensures Stored(r)
  {
    if !Insertable(item) then m
    else
      var key := ItemKey(item, position);
      var existing := if key in m.entries then m.entries[key] else EmptyObject();
      m.Set(key, Spread(Spread(EmptyObject(), existing), item.obj))
  }

  /** `handleInsert` files a new key at the end of the map and leaves the order alone
      otherwise. */
  lemma AbsorbKeys(m: OrderedMap<IdKey, Object>, item: Json, position: int)
    requires Stored(m)
    requires item.JObject? ==> item.obj.Valid()
    ensures forall k :: k in m.entries <==> k in m.keys
    ensures Absorb(m, item, position).keys
      == m.keys + (if Insertable(item) && ItemKey(item, position) !in m.entries then [ItemKey(item, position)] else [])
  {
    forall k | k in m.keys ensures k in m.entries {
      var i :| 0 <= i < |m.keys| && m.keys[i] == k;
    }
  }

  /** After `handleInsert`, the record under the item's key has the item's fields and, for the
      others, those the record had before; every other record is unchanged. */
  lemma AbsorbFields(m: OrderedMap<IdKey, Object>, item: Json, position: int, key: IdKey, name: string)
    requires Stored(m)
    requires item.JObject? ==> item.obj.Valid()
    ensures var r, filed := Absorb(m, item, position), Insertable(item) && ItemKey(item, position) == key;
      && (key in r.entries <==> key in m.entries || filed)
      && (filed && name in item.obj.entries ==> Get(r.entries[key], name) == Value(item.obj.entries[name]))
      && (filed && name !in item.obj.entries ==>
            Get(r.entries[key], name) == if key in m.entries then Get(m.entries[key], name) else Undefined)
      && (!filed && key in m.entries ==> r.entries[key] == m.entries[key])
  {
    if Insertable(item) {
      var k := ItemKey(item, position);
      var existing := if k in m.entries then m.entries[k] else EmptyObject();
      var record := Spread(Spread(EmptyObject(), existing), item.obj);
      assert Absorb(m, item, position).entries == m.entries[k := record];
      if k == key {
        RecordFields(existing, item.obj, name);
      }
    }
  }

  /** `{ ...existing, ...item }`: a field of the item wins, any other keeps its value. */
  lemma RecordFields(existing: Object, item: Object, name: string)
    requires existing.Valid() && item.Valid()
    ensures var record := Spread(Spread(EmptyObject(), existing), item);
      Get(record, name) == if name in item.entries then Value(item.entries[name]) else Get(existing, name)
  {
    var copy := Spread(EmptyObject(), existing);
    GetUnion(EmptyObject(), existing, copy, name);
    GetUnion(copy, item, Spread(copy, item), name);
  }

  lemma GetUnion(a: Object, b: Object, c: Object, name: string)
    requires c.entries == a.entries + b.entries
    ensures Get(c, name) == if name in b.entries then Value(b.entries[name]) else Get(a, name)
  {
  }

  /** `mergedMap` after `handleInsert` has run on each of `items`, the item at index `i`
      being at position `i`. */
  function Merged(items: seq<Json>): (r: OrderedMap<IdKey, Object>)
    requires Parsed(items)
    ensures Stored(r)
  {
    if items == [] then EmptyMap()
    else
      var prefix := items[..|items| - 1];
      assert Parsed(prefix) by {
        forall i | 0 <= i < |prefix| ensures prefix[i] == items[i] { }
      }
      Absorb(Merged(prefix), items[|items| - 1], |items| - 1)
  }

  /** `handleInsert(item)`. */
  method HandleInsert(mergedMap: OrderedMap<IdKey, Object>, item: Json, position: int)
    returns (next: OrderedMap<IdKey, Object>)
    requires Stored(mergedMap)
    requires item.JObject? ==> item.obj.Valid()
    ensures next == Absorb(mergedMap, item, position)
  {
    if !item.JObject? {
      return mergedMap;
    }
    if "id" !in item.obj.entries || item.obj.entries["id"].JNull? {
      return mergedMap;
    }
    var id := ItemKey(item, position);
    var existing := EmptyObject();
    if id in mergedMap.entries {
      existing := mergedMap.entries[id];
    }
    next := mergedMap.Set(id, Spread(Spread(EmptyObject(), existing), item.obj));
  }

  lemma MergedStep(items: seq<Json>, i: nat)
    requires Parsed(items) && i < |items|
    ensures Parsed(items[..i]) && Parsed(items[..i + 1])
    ensures Merged(items[..i + 1]) == Absorb(Merged(items[..i]), items[i], i)
  {
    assert Parsed(items[..i + 1]) by {
      forall j | 0 <= j < i + 1 ensures items[..i + 1][j] == items[j] { }
    }
    assert Parsed(items[..i]) by {
      forall j | 0 <= j < i ensures items[..i][j] == items[j] { }
    }
    assert items[..i + 1][..i] == items[..i];
  }

  // ---------------------------------------------------------------------------
  // Ranking

  /** `Number(x.count) || 0`: numbers and numeric strings count as themselves, `true` as 1;
      anything that converts to NaN or to 0 counts as 0. */
  function CountRank(count: Prop): int {
    match count
    case Value(JNum(n)) => n
    case Value(JBool(b)) => if b then 1 else 0
    case Value(JStr(s)) => if |s| > 0 && AllDigits(s) then ParseDigits(s) else 0
    case _ => 0
  }

  /** `String(v)` for a truthy value. An array joins its elements' texts with commas,
      `null` elements giving the empty text. */
  function Text(v: Json): string
    decreases v, 1
  {
    match v
    case JNull => "null"
    case JBool(b) => if b then "true" else "false"
    case JNum(n) => Decimal(n)
    case JStr(s) => s
    case JArray(elems) => Joined(elems)
    case JObject(_) => "[object Object]"
  }

  function Joined(elems: seq<Json>): string
    decreases elems, 0
  {
    if elems == [] then ""
    else
      var first := if elems[0].JNull? then "" else Text(elems[0]);
      if |elems| == 1 then first else first + "," + Joined(elems[1..])
  }

  /** `String(x.name || '')`: a falsy name (missing, `null`, `false`, `0`, `""`) is `""`. */
  function NameRank(name: Prop): string {
    match name
    case Undefined => ""
    case Value(v) =>
      if v.JNull? || v == JBool(false) || v == JNum(0) || v == JStr("") then "" else Text(v)
  }

  /** The sort key of a merged record: its count, then its name. */
  function Rank(o: Object): (int, string) {
    (CountRank(Get(o, "count")), NameRank(Get(o, "name")))
  }

  /** `localeCompare`, as the code-point order on strings. */
  function LocaleCompare(s: string, t: string): (r: int)
    ensures r == 0 <==> s == t
  {
    if s == t then 0 else if StrLe(s, t) then -1 else 1
  }

  /** The comparator passed to `sort`. */
  function Comparator(a: Object, b: Object): int {
    var countA, countB := CountRank(Get(a, "count")), CountRank(Get(b, "count"));
    if countA == countB then LocaleCompare(NameRank(Get(a, "name")), NameRank(Get(b, "name")))
    else countB - countA
  }

  /** The comparator puts `a` no later than `b` exactly when `RankLe` does: the larger count
      first, and on equal counts the smaller name first. */
  lemma ComparatorOrder(a: Object, b: Object)
    ensures Comparator(a, b) <= 0 <==> RankLe(Rank(a), Rank(b))
    ensures Comparator(a, b) == 0 <==> Rank(a) == Rank(b)
  {
    var na, nb := NameRank(Get(a, "name")), NameRank(Get(b, "name"));
    StrLeReflexive(na);
  }

  /** `Array.from(values).sort(comparator)`: stable, so records of equal rank keep their
      order in the map. */
  function Ranked(values: seq<Object>): seq<Object> {
    SortByKey(values, Rank, RankLe)
  }

  // ---------------------------------------------------------------------------
  // mergeArtistCollections

  /** `mergeArtistCollections(primaryList, secondaryList)`: every item of the primary list,
      then every item of the secondary list, goes through `handleInsert`; the merged records
      are returned ranked. */
  method MergeArtistCollections(primaryList: seq<Json>, secondaryList: seq<Json>) returns (r: seq<Object>)
    requires Parsed(primaryList + secondaryList)
    ensures var merged := Merged(primaryList + secondaryList);
      && r == Ranked(merged.Values())
      && multiset(r) == multiset(merged.Values())
      && |r| == |FirstSeen(ValidKeys(primaryList + secondaryList, 0))|
      && SortedBy(r, Rank, RankLe)
  {
    var all := primaryList + secondaryList;
    var mergedMap: OrderedMap<IdKey, Object> := EmptyMap();
    var i := 0;
    while i < |primaryList|
      invariant 0 <= i <= |primaryList|
      invariant Parsed(all[..i]) && mergedMap == Merged(all[..i])
    {
      assert all[i] == primaryList[i];
      MergedStep(all, i);
      mergedMap := HandleInsert(mergedMap, primaryList[i], i);
      i := i + 1;
    }
    var j, position := 0, |primaryList|;
    while j < |secondaryList|
      invariant 0 <= j <= |secondaryList| && position == |primaryList| + j
      invariant Parsed(all[..position]) && mergedMap == Merged(all[..position])
    {
      assert all[position] == secondaryList[j];
      MergedStep(all, position);
      mergedMap := HandleInsert(mergedMap, secondaryList[j], position);
      j, position := j + 1, position + 1;
    }
    assert all[..position] == all;
    r := SortByKey(mergedMap.Values(), Rank, RankLe);
    MergedOutput(all);
  }

  /** The ranked records are the merged ones, one per distinct key, and sorted. */
  lemma MergedOutput(items: seq<Json>)
    requires Parsed(items)
    ensures var values := Merged(items).Values();
      && multiset(Ranked(values)) == multiset(values)
      && |Ranked(values)| == |FirstSeen(ValidKeys(items, 0))|
      && SortedBy(Ranked(values), Rank, RankLe)
  {
    MergedKeys(items);
    RankLeIsTotalOrder();
    SortSorted(Merged(items).Values(), Rank, RankLe);
  }

  // ---------------------------------------------------------------------------
  // Which records come out

  /** The keys of the insertable items, in order, the first item being at `offset`. */
  function ValidKeys(items: seq<Json>, offset: int): (r: seq<IdKey>)
    ensures |r| <= |items|
  {
    if items == [] then []
    else
      var last := items[|items| - 1];
      ValidKeys(items[..|items| - 1], offset) + (if Insertable(last) then [ItemKey(last, offset + |items| - 1)] else [])
  }

  /** The first occurrence of every element, in order. */
  function FirstSeen<T(==,!new)>(s: seq<T>): (r: seq<T>)
    ensures Distinct(r)
    ensures forall x :: x in r <==> x in s
  {
    if s == [] then []
    else
      var prefix, last := s[..|s| - 1], s[|s| - 1];
      var done := FirstSeen(prefix);
      assert forall x :: x in s <==> x in prefix || x == last;
      if last in prefix then done
      else
        DistinctSnoc(done, last);
        done + [last]
  }

  /** `mergedMap` holds one entry per distinct key of the insertable items, in the order
      in which each key first appeared: later items with a known key update that entry in
      place. */
  lemma {:induction false} MergedKeys(items: seq<Json>)
    requires Parsed(items)
    ensures Merged(items).keys == FirstSeen(ValidKeys(items, 0))
  {
    if items != [] {
      var prefix, last := items[..|items| - 1], items[|items| - 1];
      MergedStep(items, |items| - 1);
      assert items[..|items| - 1 + 1] == items;
      MergedKeys(prefix);
      var m := Merged(prefix);
      AbsorbKeys(m, last, |items| - 1);
      var before := ValidKeys(prefix, 0);
      if Insertable(last) {
        var key := ItemKey(last, |items| - 1);
        var s := before + [key];
        assert ValidKeys(items, 0) == s;
        assert s[..|s| - 1] == before && s[|s| - 1] == key;
        assert key in before <==> key in m.entries;
      } else {
        assert ValidKeys(items, 0) == before;
      }
    }
  }

  /** So the output has exactly as many records as there are distinct valid ids. */
  lemma MergedCount(items: seq<Json>)
    requires Parsed(items)
    ensures |Merged(items).Values()| == |set k | k in ValidKeys(items, 0)|
  {
    MergedKeys(items);
    var s := ValidKeys(items, 0);
    DistinctCard(FirstSeen(s));
    assert (set k | k in FirstSeen(s)) == (set k | k in s);
  }

  /** Adding items none of which passes `handleInsert`'s guards changes nothing. */
  lemma {:induction false} SkipsInvalid(items: seq<Json>, rest: seq<Json>)
    requires Parsed(items + rest)
    requires forall x :: x in rest ==> !Insertable(x)
    ensures Parsed(items)
    ensures Merged(items + rest) == Merged(items)
    decreases |rest|
  {
    assert Parsed(items) by {
      forall i | 0 <= i < |items| ensures items[i] == (items + rest)[i] { }
    }
    if rest != [] {
      var all := items + rest;
      var shorter := rest[..|rest| - 1];
      assert all[..|all| - 1] == items + shorter;
      assert forall x :: x in shorter ==> x in rest;
      SkipsInvalid(items, shorter);
    } else {
      assert items + rest == items;
    }
  }

  // ---------------------------------------------------------------------------
  // What each record holds

  /** The value the field `name` has in the last insertable item filed under `key` that
      has that field, or `undefined` when none has; the first item is at `offset`. */
  function LastProp(items: seq<Json>, offset: int, key: IdKey, name: string): Prop {
    if items == [] then Undefined
    else
      var last := items[|items| - 1];
      if Insertable(last) && ItemKey(last, offset + |items| - 1) == key && name in last.obj.entries
      then Value(last.obj.entries[name])
      else LastProp(items[..|items| - 1], offset, key, name)
  }

  /** The shallow merge: each field of a merged record has the value of the LAST item with
      its id that has the field, so a later item overrides an earlier one field by field,
      and a field only an earlier item has is kept. A key not filed reads nothing. */
  lemma {:induction false} MergedFields(items: seq<Json>, key: IdKey, name: string)
    requires Parsed(items)
    ensures key in Merged(items).entries ==> Get(Merged(items).entries[key], name) == LastProp(items, 0, key, name)
    ensures key !in Merged(items).entries ==> LastProp(items, 0, key, name) == Undefined
  {
    if items != [] {
      var prefix, last := items[..|items| - 1], items[|items| - 1];
      MergedStep(items, |items| - 1);
      assert items[..|items| - 1 + 1] == items;
      MergedFields(prefix, key, name);
      AbsorbFields(Merged(prefix), last, |items| - 1, key, name);
    }
  }

  /** Secondary records override primary ones: a field comes from the secondary list
      whenever some secondary item with that id has it, and from the primary list
      otherwise. */
  lemma {:induction false} SecondaryWins(primary: seq<Json>, secondary: seq<Json>, key: IdKey, name: string)
    ensures LastProp(primary + secondary, 0, key, name)
      == if LastProp(secondary, |primary|, key, name).Value? then LastProp(secondary, |primary|, key, name)
         else LastProp(primary, 0, key, name)
    decreases |secondary|
  {
    if secondary == [] {
      assert primary + secondary == primary;
    } else {
      var all := primary + secondary;
      var shorter := secondary[..|secondary| - 1];
      assert all[..|all| - 1] == primary + shorter;
      assert all[|all| - 1] == secondary[|secondary| - 1];
      SecondaryWins(primary, shorter, key, name);
    }
  }

  /** Every merged record has an `id`: the one of the last item filed under its key. */
  lemma MergedHasId(items: seq<Json>, key: IdKey)
    requires Parsed(items) && key in Merged(items).entries
    ensures Get(Merged(items).entries[key], "id").Value?
  {
    MergedKeys(items);
    MergedFields(items, key, "id");
    IdFiled(items, 0, key);
  }

  lemma {:induction false} IdFiled(items: seq<Json>, offset: int, key: IdKey)
    requires key in ValidKeys(items, offset)
    ensures LastProp(items, offset, key, "id").Value?
  {
    var last := items[|items| - 1];
    if !(Insertable(last) && ItemKey(last, offset + |items| - 1) == key) {
      IdFiled(items[..|items| - 1], offset, key);
    }
  }

  // ---------------------------------------------------------------------------
  // The order of the output

  /** The output is ranked: a record comes before every record with a smaller count, and
      among equal counts before every record with a larger name. */
  lemma RankedOrder(values: seq<Object>, i: nat, j: nat)
    requires i < j < |values|
    ensures var r := Ranked(values);
      var ci, cj := CountRank(Get(r[i], "count")), CountRank(Get(r[j], "count"));
      ci > cj || (ci == cj && StrLe(NameRank(Get(r[i], "name")), NameRank(Get(r[j], "name"))))
  {
    RankLeIsTotalOrder();
    SortSorted(values, Rank, RankLe);
  }

  /** A record without a `count` ranks as 0: it comes after every record whose count is a
      positive number. */
  lemma UncountedAfterCounted(values: seq<Object>, i: nat, j: nat)
    requires i < j < |values|
    ensures var r := Ranked(values);
      Get(r[i], "count").Undefined? ==> CountRank(Get(r[j], "count")) <= 0
  {
    RankedOrder(values, i, j);
  }

  /** Records of the same rank keep the order the map gives them. */
  lemma RankedStable(values: seq<Object>, rank: (int, string))
    ensures WithKey(Ranked(values), Rank, rank) == WithKey(values, Rank, rank)
  {
    RankLeIsTotalOrder();
    SortStable(values, Rank, RankLe, rank);
  }
}
