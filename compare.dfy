/** The two-catalog comparison of scripts/lib/compare.js: the per-album summary of one
    catalog, the differences between two summaries (albums on one side only or on both,
    songs on one side only), and the structure of the comparison report. */
module Compare {
  import opened Orders
  import opened Seqs
  import opened Js
  import opened Tracks

  // ---------------------------------------------------------------------------
  // The summary of one catalog

  /** The fields of a record that the summary keeps: `{ name, artist, id, ext, bitrate }`. */
  datatype SongInfo = SongInfo(name: Field, artist: Field, id: Scalar, ext: Field, bitrate: Scalar)

  function InfoOf(item: Song): (r: SongInfo)
    ensures r.name == item.name && r.artist == item.artist && r.id == item.id
    ensures r.ext == item.ext && r.bitrate == item.bitrate
  {
    SongInfo(item.name, item.artist, item.id, item.ext, item.bitrate)
  }

  function Infos(items: seq<Song>): (r: seq<SongInfo>)
    ensures |r| == |items|
    ensures forall i :: 0 <= i < |items| ==> r[i] == InfoOf(items[i])
  {
    if items == [] then [] else Infos(items[..|items| - 1]) + [InfoOf(items[|items| - 1])]
  }

  /** What `analyzeAlbums` returns. The two plain objects are keyed by album, and their keys
      are listed in the order the albums were first met. */
  datatype Summary = Summary(
    albums: OrderedMap<string, int>,
    songsByAlbum: OrderedMap<string, seq<SongInfo>>,
    totalAlbums: int,
    totalSongs: int)

  /** `albums` after the loop: the number of records of each album. */
  function Counts(data: seq<Song>): map<string, int> {
    if data == [] then map[]
    else
      var m := Counts(data[..|data| - 1]);
      var a := AlbumOf(data[|data| - 1]);
      m[a := (if a in m then m[a] else 0) + 1]
  }

  /** `songsByAlbum` after the loop: the kept fields of each album's records. */
  function Buckets(data: seq<Song>): map<string, seq<SongInfo>> {
    if data == [] then map[]
    else
      var m := Buckets(data[..|data| - 1]);
      var last := data[|data| - 1];
      var a := AlbumOf(last);
      m[a := (if a in m then m[a] else []) + [InfoOf(last)]]
  }

  /** The summary `analyzeAlbums` returns for `data`. */
  function Summarize(data: seq<Song>): Summary {
    Summary(OrderedMap(Albums(data), Counts(data)), OrderedMap(Albums(data), Buckets(data)), |Albums(data)|, |data|)
  }

  /** `albums` as it stands after the first `i` records. */
  ghost predicate CountedUpTo(albums: OrderedMap<string, int>, data: seq<Song>, i: nat)
    requires i <= |data|
  {
    albums.Valid() && albums.keys == Albums(data[..i]) && albums.entries == Counts(data[..i])
  }

  /** `songsByAlbum` as it stands after the first `i` records. */
  ghost predicate KeptUpTo(songsByAlbum: OrderedMap<string, seq<SongInfo>>, data: seq<Song>, i: nat)
    requires i <= |data|
  {
    songsByAlbum.Valid() && songsByAlbum.keys == Albums(data[..i]) && songsByAlbum.entries == Buckets(data[..i])
  }

  lemma PrefixStep(data: seq<Song>, i: nat)
    requires i < |data|
    ensures data[..i + 1][..i] == data[..i] && data[..i + 1][i] == data[i]
  {
    assert data[..i + 1][..i] == data[..i];
  }

  /** `if (!albums[album]) albums[album] = 0; albums[album]++` for record `i`: the test
      succeeds exactly on a new album, as the count of an album seen before is positive. */
  method CountRecord(albums: OrderedMap<string, int>, data: seq<Song>, i: nat, isNew: bool) returns (r: OrderedMap<string, int>)
    requires i < |data| && CountedUpTo(albums, data, i)
    requires isNew <==> AlbumOf(data[i]) !in albums.entries
    ensures CountedUpTo(r, data, i + 1)
  {
    var album := AlbumOf(data[i]);
    PrefixStep(data, i);
    r := albums;
    if isNew {
      r := r.Set(album, 0);
    }
    r := r.Set(album, r.entries[album] + 1);
  }

  /** `songsByAlbum[album] = []` for a new album, then `songsByAlbum[album].push(...)` with the
      kept fields of record `i`. */
  method KeepRecord(songsByAlbum: OrderedMap<string, seq<SongInfo>>, data: seq<Song>, i: nat, isNew: bool)
    returns (r: OrderedMap<string, seq<SongInfo>>)
    requires i < |data| && KeptUpTo(songsByAlbum, data, i)
    requires isNew <==> AlbumOf(data[i]) !in songsByAlbum.entries
    ensures KeptUpTo(r, data, i + 1)
  {
    var album := AlbumOf(data[i]);
    PrefixStep(data, i);
    r := songsByAlbum;
    if isNew {
      r := r.Set(album, []);
    }
    r := r.Set(album, r.entries[album] + [InfoOf(data[i])]);
  }

  /** `analyzeAlbums`: count the records of each album and keep their fields, album by album,
      a missing or empty album counting as the sentinel album. */
  method AnalyzeAlbums(data: seq<Song>) returns (s: Summary)
    ensures s.albums.Valid() && s.songsByAlbum.Valid()
    ensures s == Summarize(data)
  {
    var albums: OrderedMap<string, int> := EmptyMap();
    var songsByAlbum: OrderedMap<string, seq<SongInfo>> := EmptyMap();
    var i := 0;
    while i < |data|
      invariant 0 <= i <= |data|
      invariant CountedUpTo(albums, data, i) && KeptUpTo(songsByAlbum, data, i)
    {
      var isNew := AlbumOf(data[i]) !in albums.entries;
      albums := CountRecord(albums, data, i, isNew);
      songsByAlbum := KeepRecord(songsByAlbum, data, i, isNew);
      i := i + 1;
    }
    assert data[..i] == data;
    var totalAlbums := |ObjectKeys(albums.keys)|;
    assert totalAlbums == |albums.keys| by {
      assert |multiset(ObjectKeys(albums.keys))| == |multiset(albums.keys)|;
    }
    s := Summary(albums, songsByAlbum, totalAlbums, |data|);
  }

  /** Exactly the albums of the records have a count and a bucket. */
  lemma {:induction false} SummaryDomain(data: seq<Song>)
    ensures forall a :: a in Counts(data) <==> a in Albums(data)
    ensures forall a :: a in Buckets(data) <==> a in Albums(data)
  {
    if data != [] {
      SummaryDomain(data[..|data| - 1]);
    }
  }

  /** Each album's count is the number of its records, and its bucket holds their fields in
      input order. */
  lemma {:induction false} SummarySpec(data: seq<Song>, a: string)
    requires a in Albums(data)
    ensures a in Counts(data) && Counts(data)[a] == |WithKey(data, AlbumOf, a)|
    ensures a in Buckets(data) && Buckets(data)[a] == Infos(WithKey(data, AlbumOf, a))
  {
    SummaryDomain(data);
    var prefix := data[..|data| - 1];
    var last := data[|data| - 1];
    assert data == prefix + [last];
    WithKeyAppend(prefix, [last], AlbumOf, a);
    assert [last][1..] == [];
    assert WithKey([last], AlbumOf, a) == if AlbumOf(last) == a then [last] else [];
    InfosAppend(WithKey(prefix, AlbumOf, a), WithKey([last], AlbumOf, a));
    if a in Albums(prefix) {
      SummarySpec(prefix, a);
    } else {
      SummaryDomain(prefix);
      AlbumsSpec(prefix);
      WithKeyNone(prefix, AlbumOf, a);
    }
  }

  lemma InfosAppend(a: seq<Song>, b: seq<Song>)
    ensures Infos(a + b) == Infos(a) + Infos(b)
  {
  }

  /** Summing the counts over the albums gives the number of records. */
  function Total(albums: seq<string>, counts: map<string, int>): int {
    if albums == [] then 0
    else
      var last := albums[|albums| - 1];
      Total(albums[..|albums| - 1], counts) + (if last in counts then counts[last] else 0)
  }

  lemma {:induction false} TotalFrame(albums: seq<string>, counts: map<string, int>, a: string, v: int)
    requires a !in albums
    ensures Total(albums, counts[a := v]) == Total(albums, counts)
  {
    if albums != [] {
      TotalFrame(albums[..|albums| - 1], counts, a, v);
    }
  }

  lemma {:induction false} TotalBump(albums: seq<string>, counts: map<string, int>, a: string)
    requires Distinct(albums) && a in albums && a in counts
    ensures Total(albums, counts[a := counts[a] + 1]) == Total(albums, counts) + 1
  {
    var prefix := albums[..|albums| - 1];
    var last := albums[|albums| - 1];
    assert Distinct(prefix);
    if last == a {
      assert a !in prefix by {
        forall i | 0 <= i < |prefix| ensures prefix[i] != a {
          assert prefix[i] == albums[i];
        }
      }
      TotalFrame(prefix, counts, a, counts[a] + 1);
    } else {
      assert a in prefix by {
        var i :| 0 <= i < |albums| && albums[i] == a;
        assert i < |prefix| && prefix[i] == a;
      }
      TotalBump(prefix, counts, a);
    }
  }

  /** The counts add up to `totalSongs`. */
  lemma {:induction false} CountsTotal(data: seq<Song>)
    ensures Total(Albums(data), Counts(data)) == |data|
  {
    if data != [] {
      var prefix := data[..|data| - 1];
      var album := AlbumOf(data[|data| - 1]);
      var keys, m := Albums(prefix), Counts(prefix);
      CountsTotal(prefix);
      SummaryDomain(prefix);
      if album in keys {
        AlbumsSpec(prefix);
        TotalBump(keys, m, album);
      } else {
        TotalFrame(keys, m, album, 1);
        var next := keys + [album];
        assert next[..|next| - 1] == keys;
      }
    }
  }

  /** Every bucket is as long as its album's count, which is positive. */
  lemma BucketsMatchCounts(data: seq<Song>, a: string)
    requires a in Albums(data)
    ensures a in Counts(data) && a in Buckets(data)
    ensures |Buckets(data)[a]| == Counts(data)[a] > 0
  {
    SummarySpec(data, a);
    AlbumsSpec(data);
    var x :| x in data && AlbumOf(x) == a;
    assert x in WithKey(data, AlbumOf, a);
  }

  /** A record without an album is counted, and kept, under the sentinel album. */
  lemma MissingAlbumCounted(data: seq<Song>, x: Song)
    requires x in data && !Truthy(x.album)
    ensures UnknownAlbum in Counts(data) && Counts(data)[UnknownAlbum] >= 1
    ensures UnknownAlbum in Buckets(data) && InfoOf(x) in Buckets(data)[UnknownAlbum]
  {
    AlbumsSpec(data);
    assert AlbumOf(x) == UnknownAlbum;
    assert UnknownAlbum in Albums(data);
    SummarySpec(data, UnknownAlbum);
    var w := WithKey(data, AlbumOf, UnknownAlbum);
    assert x in w;
    var i :| 0 <= i < |w| && w[i] == x;
    assert Infos(w)[i] == InfoOf(x);
  }

  /** A catalog summary built on records whose albums are all plain names gets this far; as the
      script is written, the first album that names a property every object inherits (such as
      "constructor") makes `songsByAlbum[album].push` throw, because the test `!albums[album]`
      sees the inherited value and skips creating the album's bucket. */
  function SummarizeAsWritten(data: seq<Song>): (r: Option<Summary>)
    ensures r.Some? <==> forall x :: x in data ==> AlbumOf(x) !in InheritedNames
    ensures r.Some? ==> r.value == Summarize(data)
  {
    if exists x :: x in data && AlbumOf(x) in InheritedNames then None else Some(Summarize(data))
  }

  /** One record on the album "toString" makes the as-written summary throw, while the
      intended summary counts it under its own album. */
  lemma ToStringAlbumThrows(item: Song)
    requires item.album == Str("toString")
    ensures SummarizeAsWritten([item]).None?
    ensures Summarize([item]).albums.entries == map["toString" := 1]
    ensures Summarize([item]).songsByAlbum.entries == map["toString" := [InfoOf(item)]]
  {
    assert [item][..0] == [];
    assert AlbumOf(item) == "toString";
    assert item in [item] && "toString" in InheritedNames;
    var none: seq<SongInfo> := [];
    assert none + [InfoOf(item)] == [InfoOf(item)];
    assert Counts([item]) == map[]["toString" := 0 + 1];
    assert Buckets([item]) == map[]["toString" := none + [InfoOf(item)]];
  }

  // ---------------------------------------------------------------------------
  // The differences between two summaries

  /** A kept song together with its album: `{ ...song, album }`. */
  datatype Entry = Entry(name: Field, artist: Field, id: Scalar, ext: Field, bitrate: Scalar, album: string)

  function Tag(info: SongInfo, album: string): (e: Entry)
    ensures e.album == album && Untag(e) == info
  {
    Entry(info.name, info.artist, info.id, info.ext, info.bitrate, album)
  }

  function Untag(e: Entry): SongInfo {
    SongInfo(e.name, e.artist, e.id, e.ext, e.bitrate)
  }

  function AlbumOfEntry(e: Entry): string {
    e.album
  }

  /** `generateKey`: the song name as a template literal renders it, "@@", then the album. */
  function GenerateKey(songName: Field, album: string): string {
    Show(songName) + "@@" + album
  }

  /** When neither rendered name holds '@', two songs share a key exactly when their names
      render alike and their albums are equal. */
  lemma GenerateKeyInjective(n1: Field, a1: string, n2: Field, a2: string)
    requires '@' !in Show(n1) && '@' !in Show(n2)
    ensures GenerateKey(n1, a1) == GenerateKey(n2, a2) <==> Show(n1) == Show(n2) && a1 == a2
  {
    if GenerateKey(n1, a1) == GenerateKey(n2, a2) {
      NoSeparatorSplit(Show(n1), a1, Show(n2), a2);
    }
  }

  /** The key is not a faithful pair of name and album: a name or album that itself holds
      "@@" can make two different songs share one key. */
  lemma GenerateKeyAmbiguous()
    ensures GenerateKey(Str("a@@b"), "c") == GenerateKey(Str("a"), "b@@c")
  {
    assert GenerateKey(Str("a@@b"), "c") == "a@@b@@c";
    assert GenerateKey(Str("a"), "b@@c") == "a@@b@@c";
  }

  function EntryKey(e: Entry): string {
    GenerateKey(e.name, e.album)
  }

  /** The songs of one album, each tagged with the album. */
  function Tagged(album: string, songs: seq<SongInfo>): (r: seq<Entry>)
    ensures |r| == |songs|
    ensures forall i :: 0 <= i < |songs| ==> r[i] == Tag(songs[i], album)
  {
    if songs == [] then [] else Tagged(album, songs[..|songs| - 1]) + [Tag(songs[|songs| - 1], album)]
  }

  /** `songsByAlbum[album]`, or nothing for an album without a bucket. */
  function Bucket(buckets: map<string, seq<SongInfo>>, album: string): seq<SongInfo> {
    if album in buckets then buckets[album] else []
  }

  /** The entries the nested `forEach` visits: album by album in `order`, song by song. */
  function Flatten(order: seq<string>, buckets: map<string, seq<SongInfo>>): seq<Entry> {
    if order == [] then []
    else
      var last := order[|order| - 1];
      Flatten(order[..|order| - 1], buckets) + Tagged(last, Bucket(buckets, last))
  }

  /** The `Map` that setting each entry under its key builds, a later entry replacing the
      value of an earlier one with the same key without moving it. */
  function Fill(entries: seq<Entry>): (r: OrderedMap<string, Entry>)
    ensures r.Valid()
  {
    if entries == [] then EmptyMap()
    else
      var last := entries[|entries| - 1];
      Fill(entries[..|entries| - 1]).Set(EntryKey(last), last)
  }

  /** `songs1Map` / `songs2Map` for one summary. */
  function SongMap(songsByAlbum: OrderedMap<string, seq<SongInfo>>): OrderedMap<string, Entry> {
    Fill(Flatten(ObjectKeys(songsByAlbum.keys), songsByAlbum.entries))
  }

  /** The values of `entries`, in the order of `keys`, whose key `other` lacks. */
  function Unmatched(keys: seq<string>, entries: map<string, Entry>, other: map<string, Entry>): seq<Entry>
    requires forall k | k in keys :: k in entries
  {
    if keys == [] then []
    else
      var last := keys[|keys| - 1];
      assert forall k | k in keys[..|keys| - 1] :: k in keys;
      Unmatched(keys[..|keys| - 1], entries, other) + (if last in other then [] else [entries[last]])
  }

  /** `[...s].filter(x => other.has(x) === inside)`. */
  function Among(s: seq<string>, other: seq<string>, inside: bool): (r: seq<string>)
    ensures forall x :: x in r <==> x in s && (x in other <==> inside)
    ensures Distinct(s) ==> Distinct(r)
  {
    if s == [] then []
    else
      var prefix := s[..|s| - 1];
      var last := s[|s| - 1];
      var r := Among(prefix, other, inside) + (if (last in other) == inside then [last] else []);
      assert Distinct(s) ==> Distinct(prefix) && last !in prefix by {
        if Distinct(s) {
          forall i | 0 <= i < |prefix| ensures prefix[i] != last {
            assert prefix[i] == s[i];
          }
        }
      }
      assert forall x :: x in prefix ==> x in s;
      r
  }

  datatype AlbumDiff = AlbumDiff(onlyInFile1: seq<string>, onlyInFile2: seq<string>, commonAlbums: seq<string>)
  datatype SongDiff = SongDiff(onlyInFile1: seq<Entry>, onlyInFile2: seq<Entry>)
  datatype Differences = Differences(albums: AlbumDiff, songs: SongDiff)

  /** The albums on one side only and on both sides, each list sorted. */
  function AlbumDifferences(albums1: seq<string>, albums2: seq<string>): AlbumDiff {
    var k1, k2 := ObjectKeys(albums1), ObjectKeys(albums2);
    AlbumDiff(SortByKey(Among(k1, k2, false), Self, StrLe),
              SortByKey(Among(k2, k1, false), Self, StrLe),
              SortByKey(Among(k1, k2, true), Self, StrLe))
  }

  /** The songs whose key only one side has, each list sorted by album. */
  function SongDifferences(m1: OrderedMap<string, Entry>, m2: OrderedMap<string, Entry>): SongDiff
    requires m1.Valid() && m2.Valid()
  {
    SongDiff(SortByKey(Unmatched(m1.keys, m1.entries, m2.entries), AlbumOfEntry, StrLe),
             SortByKey(Unmatched(m2.keys, m2.entries, m1.entries), AlbumOfEntry, StrLe))
  }

  /** What `compareDifferences` returns for two summaries. */
  function Compare(a1: Summary, a2: Summary): Differences {
    Differences(AlbumDifferences(a1.albums.keys, a2.albums.keys),
                SongDifferences(SongMap(a1.songsByAlbum), SongMap(a2.songsByAlbum)))
  }

  lemma FlattenStep(order: seq<string>, buckets: map<string, seq<SongInfo>>, k: nat)
    requires k < |order|
    ensures Flatten(order[..k + 1], buckets) == Flatten(order[..k], buckets) + Tagged(order[k], Bucket(buckets, order[k]))
  {
    assert order[..k + 1][..k] == order[..k];
  }

  lemma FillStep(before: seq<Entry>, album: string, songs: seq<SongInfo>, j: nat)
    requires j < |songs|
    ensures var e := Tag(songs[j], album);
      Fill(before + Tagged(album, songs[..j + 1])) == Fill(before + Tagged(album, songs[..j])).Set(EntryKey(e), e)
  {
    var t := Tagged(album, songs[..j]);
    var e := Tag(songs[j], album);
    assert songs[..j + 1][..j] == songs[..j];
    assert Tagged(album, songs[..j + 1]) == t + [e];
    var all := before + t + [e];
    assert before + (t + [e]) == all;
    assert all[..|all| - 1] == before + t;
  }

  /** The inner `forEach`: set every song of one album under its key. */
  method FillAlbum(m: OrderedMap<string, Entry>, ghost before: seq<Entry>, album: string, songs: seq<SongInfo>)
    returns (r: OrderedMap<string, Entry>)
    requires m == Fill(before)
    ensures r == Fill(before + Tagged(album, songs))
  {
    r := m;
    var j := 0;
    assert Tagged(album, songs[..0]) == [];
    assert before + Tagged(album, songs[..0]) == before;
    while j < |songs|
      invariant 0 <= j <= |songs|
      invariant r == Fill(before + Tagged(album, songs[..j]))
    {
      var song := songs[j];
      FillStep(before, album, songs, j);
      r := r.Set(GenerateKey(song.name, album), Tag(song, album));
      j := j + 1;
    }
    assert songs[..j] == songs;
  }

  /** The outer `forEach`, over the albums in `order`. */
  method FillAlbums(order: seq<string>, buckets: map<string, seq<SongInfo>>) returns (m: OrderedMap<string, Entry>)
    ensures m == Fill(Flatten(order, buckets))
  {
    m := EmptyMap();
    var k := 0;
    assert Flatten(order[..0], buckets) == [];
    while k < |order|
      invariant 0 <= k <= |order|
      invariant m == Fill(Flatten(order[..k], buckets))
    {
      var album := order[k];
      var songs := Bucket(buckets, album);
      FlattenStep(order, buckets, k);
      m := FillAlbum(m, Flatten(order[..k], buckets), album, songs);
      k := k + 1;
    }
    assert order[..k] == order;
  }

  /** `Object.entries(songsByAlbum).forEach(...)`: build the song map of one summary. */
  method BuildSongMap(songsByAlbum: OrderedMap<string, seq<SongInfo>>) returns (m: OrderedMap<string, Entry>)
    ensures m == SongMap(songsByAlbum)
  {
    m := FillAlbums(ObjectKeys(songsByAlbum.keys), songsByAlbum.entries);
  }

  lemma UnmatchedStep(keys: seq<string>, entries: map<string, Entry>, other: map<string, Entry>, i: nat)
    requires i < |keys| && forall k | k in keys :: k in entries
    ensures forall k | k in keys[..i + 1] :: k in entries
    ensures forall k | k in keys[..i] :: k in entries
    ensures Unmatched(keys[..i + 1], entries, other) ==
            Unmatched(keys[..i], entries, other) + (if keys[i] in other then [] else [entries[keys[i]]])
  {
    assert keys[..i + 1][..i] == keys[..i];
  }

  /** `songs1Map.forEach(...)`: the songs, in map order, whose key the other map lacks. */
  method CollectUnmatched(m1: OrderedMap<string, Entry>, m2: OrderedMap<string, Entry>) returns (r: seq<Entry>)
    requires m1.Valid()
    ensures r == Unmatched(m1.keys, m1.entries, m2.entries)
  {
    r := [];
    var i := 0;
    while i < |m1.keys|
      invariant 0 <= i <= |m1.keys|
      invariant r == Unmatched(m1.keys[..i], m1.entries, m2.entries)
    {
      var key := m1.keys[i];
      UnmatchedStep(m1.keys, m1.entries, m2.entries, i);
      if key !in m2.entries {
        r := r + [m1.entries[key]];
      }
      i := i + 1;
    }
    assert m1.keys[..i] == m1.keys;
  }

  /** `compareDifferences`: the albums on one side only or on both, and the songs whose
      name and album only one side has. */
  method CompareDifferences(a1: Summary, a2: Summary) returns (d: Differences)
    ensures d == Compare(a1, a2)
  {
    var albums1 := ObjectKeys(a1.albums.keys);
    var albums2 := ObjectKeys(a2.albums.keys);
    var onlyInFile1 := SortByKey(Among(albums1, albums2, false), Self, StrLe);
    var onlyInFile2 := SortByKey(Among(albums2, albums1, false), Self, StrLe);
    var commonAlbums := SortByKey(Among(albums1, albums2, true), Self, StrLe);
    var songs1Map := BuildSongMap(a1.songsByAlbum);
    var songs2Map := BuildSongMap(a2.songsByAlbum);
    var songsOnlyIn1 := CollectUnmatched(songs1Map, songs2Map);
    var songsOnlyIn2 := CollectUnmatched(songs2Map, songs1Map);
    d := Differences(AlbumDiff(onlyInFile1, onlyInFile2, commonAlbums),
                     SongDiff(SortByKey(songsOnlyIn1, AlbumOfEntry, StrLe), SortByKey(songsOnlyIn2, AlbumOfEntry, StrLe)));
  }

  // ---------------------------------------------------------------------------
  // What the differences mean

  /** Sorting a list of distinct album names gives them in strictly ascending order. */
  lemma SortedAscending(s: seq<string>)
    requires Distinct(s)
    ensures forall i, j :: 0 <= i < j < |SortByKey(s, Self, StrLe)| ==>
      StrLe(SortByKey(s, Self, StrLe)[i], SortByKey(s, Self, StrLe)[j]) && SortByKey(s, Self, StrLe)[i] != SortByKey(s, Self, StrLe)[j]
  {
    StrLeIsTotalOrder();
    SortSorted(s, Self, StrLe);
    DistinctPermutation(s, SortByKey(s, Self, StrLe));
  }

  lemma SortMembers<T, K>(s: seq<T>, key: T -> K, le: (K, K) -> bool)
    ensures forall x :: x in SortByKey(s, key, le) <==> x in s
  {
    var r := SortByKey(s, key, le);
    assert forall x :: x in r <==> x in multiset(r);
    assert forall x :: x in s <==> x in multiset(s);
  }

  /** An album is listed as only in the first file exactly when the first summary has it and
      the second does not, as common exactly when both have it; and so on. */
  lemma AlbumDiffMembers(albums1: seq<string>, albums2: seq<string>)
    ensures forall a :: a in AlbumDifferences(albums1, albums2).onlyInFile1 <==> a in albums1 && a !in albums2
    ensures forall a :: a in AlbumDifferences(albums1, albums2).onlyInFile2 <==> a in albums2 && a !in albums1
    ensures forall a :: a in AlbumDifferences(albums1, albums2).commonAlbums <==> a in albums1 && a in albums2
  {
    var k1, k2 := ObjectKeys(albums1), ObjectKeys(albums2);
    assert forall a :: a in k1 <==> a in albums1 by {
      assert forall a :: a in k1 <==> a in multiset(k1);
      assert forall a :: a in albums1 <==> a in multiset(albums1);
    }
    assert forall a :: a in k2 <==> a in albums2 by {
      assert forall a :: a in k2 <==> a in multiset(k2);
      assert forall a :: a in albums2 <==> a in multiset(albums2);
    }
    SortMembers(Among(k1, k2, false), Self, StrLe);
    SortMembers(Among(k2, k1, false), Self, StrLe);
    SortMembers(Among(k1, k2, true), Self, StrLe);
  }

  lemma {:induction false} AmongPartition(s: seq<string>, other: seq<string>)
    ensures |Among(s, other, false)| + |Among(s, other, true)| == |s|
  {
    if s != [] {
      AmongPartition(s[..|s| - 1], other);
    }
  }

  /** Each list of albums is in strictly ascending order, and the albums of each file are
      split between "only here" and "common" without loss. */
  lemma AlbumDiffOrdered(albums1: seq<string>, albums2: seq<string>)
    requires Distinct(albums1) && Distinct(albums2)
    ensures var d := AlbumDifferences(albums1, albums2);
      forall i, j :: 0 <= i < j < |d.onlyInFile1| ==> StrLe(d.onlyInFile1[i], d.onlyInFile1[j]) && d.onlyInFile1[i] != d.onlyInFile1[j]
    ensures var d := AlbumDifferences(albums1, albums2);
      forall i, j :: 0 <= i < j < |d.onlyInFile2| ==> StrLe(d.onlyInFile2[i], d.onlyInFile2[j]) && d.onlyInFile2[i] != d.onlyInFile2[j]
    ensures var d := AlbumDifferences(albums1, albums2);
      forall i, j :: 0 <= i < j < |d.commonAlbums| ==> StrLe(d.commonAlbums[i], d.commonAlbums[j]) && d.commonAlbums[i] != d.commonAlbums[j]
    ensures var d := AlbumDifferences(albums1, albums2);
      |d.onlyInFile1| + |d.commonAlbums| == |albums1| && |d.onlyInFile2| + |d.commonAlbums| == |albums2|
  {
    var k1, k2 := ObjectKeys(albums1), ObjectKeys(albums2);
    DistinctPermutation(albums1, k1);
    DistinctPermutation(albums2, k2);
    SortedAscending(Among(k1, k2, false));
    SortedAscending(Among(k2, k1, false));
    SortedAscending(Among(k1, k2, true));
    AmongPartition(k1, k2);
    AmongPartition(k2, k1);
    AlbumDiffMembers(albums1, albums2);
    // Both orders of the common albums hold the same names, so the second file's count works too.
    var c1, c2 := Among(k1, k2, true), Among(k2, k1, true);
    assert forall a :: a in c1 <==> a in c2;
    SortSetUnique(c1, c2, StrLe) by { StrLeIsTotalOrder(); }
  }

  /** Comparing the files the other way round swaps the two "only in" lists and keeps the
      common albums. */
  lemma AlbumDiffSwap(albums1: seq<string>, albums2: seq<string>)
    requires Distinct(albums1) && Distinct(albums2)
    ensures AlbumDifferences(albums2, albums1).onlyInFile1 == AlbumDifferences(albums1, albums2).onlyInFile2
    ensures AlbumDifferences(albums2, albums1).onlyInFile2 == AlbumDifferences(albums1, albums2).onlyInFile1
    ensures AlbumDifferences(albums2, albums1).commonAlbums == AlbumDifferences(albums1, albums2).commonAlbums
  {
    var k1, k2 := ObjectKeys(albums1), ObjectKeys(albums2);
    DistinctPermutation(albums1, k1);
    DistinctPermutation(albums2, k2);
    var c1, c2 := Among(k1, k2, true), Among(k2, k1, true);
    assert forall a :: a in c1 <==> a in c2;
    StrLeIsTotalOrder();
    SortSetUnique(c1, c2, StrLe);
  }

  /** An entry is in a tagged album exactly when it carries that album and its song is there. */
  lemma TaggedMembers(album: string, songs: seq<SongInfo>)
    ensures forall e :: e in Tagged(album, songs) <==> e.album == album && Untag(e) in songs
  {
    var t := Tagged(album, songs);
    forall e: Entry | e.album == album && Untag(e) in songs ensures e in t {
      var i :| 0 <= i < |songs| && songs[i] == Untag(e);
      assert t[i] == Tag(Untag(e), album) == e;
    }
  }

  /** The nested `forEach` visits exactly the songs of the listed albums. */
  lemma {:induction false} FlattenMembers(order: seq<string>, buckets: map<string, seq<SongInfo>>)
    ensures forall e :: e in Flatten(order, buckets) <==> e.album in order && Untag(e) in Bucket(buckets, e.album)
  {
    if order != [] {
      var prefix, last := order[..|order| - 1], order[|order| - 1];
      FlattenMembers(prefix, buckets);
      TaggedMembers(last, Bucket(buckets, last));
      assert order == prefix + [last];
    }
  }

  /** `{ ...info, album }` for the record `x`. */
  function RecordEntry(x: Song): (e: Entry)
    ensures EntryKey(e) == RecordKey(x)
  {
    Tag(InfoOf(x), AlbumOf(x))
  }

  /** The key `compareDifferences` files the record `x` under. */
  function RecordKey(x: Song): string {
    GenerateKey(x.name, AlbumOf(x))
  }

  /** The keys of all records of a catalog. */
  function RecordKeys(data: seq<Song>): set<string> {
    set x | x in data :: RecordKey(x)
  }

  lemma InfosMembers(items: seq<Song>)
    ensures forall info :: info in Infos(items) <==> exists x :: x in items && InfoOf(x) == info
  {
    var r := Infos(items);
    forall info | info in r ensures exists x :: x in items && InfoOf(x) == info {
      var i :| 0 <= i < |r| && r[i] == info;
      assert items[i] in items;
    }
    forall x | x in items ensures InfoOf(x) in r {
      var i :| 0 <= i < |items| && items[i] == x;
      assert r[i] == InfoOf(x);
    }
  }

  /** For a summary of `data`, the nested `forEach` visits exactly the entries of its records. */
  lemma FlattenSummary(data: seq<Song>)
    ensures forall e :: e in Flatten(ObjectKeys(Albums(data)), Buckets(data)) <==> exists x :: x in data && RecordEntry(x) == e
  {
    var order := ObjectKeys(Albums(data));
    FlattenMembers(order, Buckets(data));
    assert forall a :: a in order <==> a in Albums(data) by {
      assert forall a :: a in order <==> a in multiset(order);
      assert forall a :: a in Albums(data) <==> a in multiset(Albums(data));
    }
    AlbumsSpec(data);
    forall e: Entry ensures e in Flatten(order, Buckets(data)) <==> exists x :: x in data && RecordEntry(x) == e {
      if e.album in Albums(data) {
        SummarySpec(data, e.album);
        var w := WithKey(data, AlbumOf, e.album);
        InfosMembers(w);
        if Untag(e) in Bucket(Buckets(data), e.album) {
          var x :| x in w && InfoOf(x) == Untag(e);
          assert RecordEntry(x) == e;
        }
        if exists x :: x in data && RecordEntry(x) == e {
          var x :| x in data && RecordEntry(x) == e;
          assert x in w;
        }
      }
    }
  }

  /** A key is in the filled map exactly when some entry has it, and then it holds the last
      such entry: a later song with the same name and album replaces an earlier one. */
  lemma {:induction false} FillAt(entries: seq<Entry>, k: string)
    ensures k in Fill(entries).entries <==> WithKey(entries, EntryKey, k) != []
    ensures k in Fill(entries).entries ==>
      Fill(entries).entries[k] == WithKey(entries, EntryKey, k)[|WithKey(entries, EntryKey, k)| - 1]
  {
    if entries != [] {
      var prefix, last := entries[..|entries| - 1], entries[|entries| - 1];
      LastWithKey(entries, k);
      FillAt(prefix, k);
    }
  }

  lemma LastWithKey(entries: seq<Entry>, k: string)
    requires entries != []
    ensures var last := entries[|entries| - 1];
      WithKey(entries, EntryKey, k) == WithKey(entries[..|entries| - 1], EntryKey, k) + (if EntryKey(last) == k then [last] else [])
  {
    var prefix, last := entries[..|entries| - 1], entries[|entries| - 1];
    assert entries == prefix + [last];
    WithKeyAppend(prefix, [last], EntryKey, k);
    assert [last][1..] == [];
  }

  /** Among entries of the records of `data`, some entry has key `k` exactly when some record
      has it, and the last such entry is the entry of such a record. */
  lemma RecordsWithKey(es: seq<Entry>, data: seq<Song>, k: string)
    requires forall e :: e in es <==> exists x :: x in data && RecordEntry(x) == e
    ensures WithKey(es, EntryKey, k) != [] <==> k in RecordKeys(data)
    ensures WithKey(es, EntryKey, k) != [] ==>
      exists x :: x in data && RecordKey(x) == k && WithKey(es, EntryKey, k)[|WithKey(es, EntryKey, k)| - 1] == RecordEntry(x)
  {
    var w := WithKey(es, EntryKey, k);
    if w != [] {
      LastWithKeyIsRecord(es, data, k);
    }
    if k in RecordKeys(data) {
      var x :| x in data && RecordKey(x) == k;
      RecordEntryWithKey(es, data, x);
    }
  }

  lemma LastWithKeyIsRecord(es: seq<Entry>, data: seq<Song>, k: string)
    requires forall e :: e in es ==> exists x :: x in data && RecordEntry(x) == e
    requires WithKey(es, EntryKey, k) != []
    ensures exists x :: x in data && RecordKey(x) == k && WithKey(es, EntryKey, k)[|WithKey(es, EntryKey, k)| - 1] == RecordEntry(x)
    ensures k in RecordKeys(data)
  {
    var w := WithKey(es, EntryKey, k);
    var e := w[|w| - 1];
    assert e in w;
    assert e in es && EntryKey(e) == k;
    var x :| x in data && RecordEntry(x) == e;
    assert RecordKey(x) == k;
    assert RecordKey(x) in RecordKeys(data);
  }

  lemma RecordEntryWithKey(es: seq<Entry>, data: seq<Song>, x: Song)
    requires forall e :: e in es <== exists x :: x in data && RecordEntry(x) == e
    requires x in data
    ensures WithKey(es, EntryKey, RecordKey(x)) != []
  {
    var e := RecordEntry(x);
    assert e in es && EntryKey(e) == RecordKey(x);
    assert e in WithKey(es, EntryKey, RecordKey(x));
  }

  /** Filling a map with the entries of the records of `data` keys it by exactly their record
      keys, each key holding the entry of a record with that key. */
  lemma FillOfRecords(es: seq<Entry>, data: seq<Song>, k: string)
    requires forall e :: e in es <==> exists x :: x in data && RecordEntry(x) == e
    ensures k in Fill(es).entries <==> k in RecordKeys(data)
    ensures k in Fill(es).entries ==> exists x :: x in data && RecordKey(x) == k && Fill(es).entries[k] == RecordEntry(x)
  {
    FillAt(es, k);
    RecordsWithKey(es, data, k);
  }

  /** The song map of a catalog summary is keyed by exactly the record keys of the catalog,
      and holds under each key the entry of one of its records with that key. */
  lemma SongMapOfData(data: seq<Song>, k: string)
    ensures k in SongMap(Summarize(data).songsByAlbum).entries <==> k in RecordKeys(data)
    ensures k in SongMap(Summarize(data).songsByAlbum).entries ==>
      exists x :: x in data && RecordKey(x) == k && SongMap(Summarize(data).songsByAlbum).entries[k] == RecordEntry(x)
  {
    var es := Flatten(ObjectKeys(Albums(data)), Buckets(data));
    assert SongMap(Summarize(data).songsByAlbum) == Fill(es);
    FlattenSummary(data);
    FillOfRecords(es, data, k);
  }

  lemma {:induction false} UnmatchedKeys(keys: seq<string>, entries: map<string, Entry>, other: map<string, Entry>, otherKeys: seq<string>)
    requires forall k | k in keys :: k in entries
    requires forall k | k in entries :: EntryKey(entries[k]) == k
    requires forall k :: k in other <==> k in otherKeys
    ensures |Unmatched(keys, entries, other)| == |Among(keys, otherKeys, false)|
    ensures forall i :: 0 <= i < |Among(keys, otherKeys, false)| ==>
      EntryKey(Unmatched(keys, entries, other)[i]) == Among(keys, otherKeys, false)[i]
  {
    if keys != [] {
      var prefix, last := keys[..|keys| - 1], keys[|keys| - 1];
      assert forall k | k in prefix :: k in keys;
      UnmatchedKeys(prefix, entries, other, otherKeys);
      var u, a := Unmatched(prefix, entries, other), Among(prefix, otherKeys, false);
      if last in other {
        assert Unmatched(keys, entries, other) == u && Among(keys, otherKeys, false) == a;
      } else {
        assert Unmatched(keys, entries, other) == u + [entries[last]];
        assert Among(keys, otherKeys, false) == a + [last];
      }
    }
  }

  lemma {:induction false} UnmatchedMembers(keys: seq<string>, entries: map<string, Entry>, other: map<string, Entry>)
    requires forall k | k in keys :: k in entries
    ensures forall e :: e in Unmatched(keys, entries, other) <==> exists k :: k in keys && k !in other && entries[k] == e
  {
    if keys != [] {
      var prefix := keys[..|keys| - 1];
      assert keys == prefix + [keys[|keys| - 1]];
      UnmatchedMembers(prefix, entries, other);
    }
  }

  /** The song map `m` keys each record of `data` under its record key. */
  ghost predicate MapsRecords(m: OrderedMap<string, Entry>, data: seq<Song>) {
    && m.Valid()
    && (forall k :: k in m.entries <==> k in RecordKeys(data))
    && (forall k :: k in m.entries ==> exists x :: x in data && RecordKey(x) == k && m.entries[k] == RecordEntry(x))
  }

  /** Each song listed as only in the first file is the entry of a record of the first catalog
      whose key the second lacks. */
  lemma OnlyInFirstSound(m1: OrderedMap<string, Entry>, m2: OrderedMap<string, Entry>, data1: seq<Song>, data2: seq<Song>)
    requires MapsRecords(m1, data1) && MapsRecords(m2, data2)
    ensures var d := SongDifferences(m1, m2).onlyInFile1;
      forall e :: e in d ==> (exists x :: x in data1 && RecordEntry(x) == e) && EntryKey(e) !in RecordKeys(data2)
  {
    var u := Unmatched(m1.keys, m1.entries, m2.entries);
    SortMembers(u, AlbumOfEntry, StrLe);
    UnmatchedMembers(m1.keys, m1.entries, m2.entries);
    forall e | e in u ensures (exists x :: x in data1 && RecordEntry(x) == e) && EntryKey(e) !in RecordKeys(data2) {
      var k :| k in m1.keys && k !in m2.entries && m1.entries[k] == e;
      var x :| x in data1 && RecordKey(x) == k && m1.entries[k] == RecordEntry(x);
    }
  }

  /** Every key of a record of the first catalog that the second lacks is listed. */
  lemma OnlyInFirstComplete(m1: OrderedMap<string, Entry>, m2: OrderedMap<string, Entry>, data1: seq<Song>, data2: seq<Song>)
    requires MapsRecords(m1, data1) && MapsRecords(m2, data2)
    ensures var d := SongDifferences(m1, m2).onlyInFile1;
      forall x :: x in data1 && RecordKey(x) !in RecordKeys(data2) ==> exists e :: e in d && EntryKey(e) == RecordKey(x)
  {
    var u := Unmatched(m1.keys, m1.entries, m2.entries);
    SortMembers(u, AlbumOfEntry, StrLe);
    UnmatchedMembers(m1.keys, m1.entries, m2.entries);
    forall x | x in data1 && RecordKey(x) !in RecordKeys(data2) ensures exists e :: e in u && EntryKey(e) == RecordKey(x) {
      var k := RecordKey(x);
      assert k in m1.entries;
      var y :| y in data1 && RecordKey(y) == k && m1.entries[k] == RecordEntry(y);
      assert m1.entries[k] in u;
    }
  }

  lemma MapsRecordsKeys(m: OrderedMap<string, Entry>, data: seq<Song>)
    requires MapsRecords(m, data)
    ensures forall k | k in m.entries :: EntryKey(m.entries[k]) == k
  {
    forall k | k in m.entries ensures EntryKey(m.entries[k]) == k {
      var x :| x in data && RecordKey(x) == k && m.entries[k] == RecordEntry(x);
    }
  }

  lemma MissingKeys(m1: OrderedMap<string, Entry>, m2: OrderedMap<string, Entry>, data1: seq<Song>, data2: seq<Song>)
    requires MapsRecords(m1, data1) && MapsRecords(m2, data2)
    ensures (set k | k in Among(m1.keys, m2.keys, false)) == RecordKeys(data1) - RecordKeys(data2)
  {
  }

  /** As many songs are listed as only in the first file as there are record keys of the
      first catalog that the second lacks. */
  lemma OnlyInFirstCount(m1: OrderedMap<string, Entry>, m2: OrderedMap<string, Entry>, data1: seq<Song>, data2: seq<Song>)
    requires MapsRecords(m1, data1) && MapsRecords(m2, data2)
    ensures |SongDifferences(m1, m2).onlyInFile1| == |RecordKeys(data1) - RecordKeys(data2)|
  {
    MapsRecordsKeys(m1, data1);
    UnmatchedKeys(m1.keys, m1.entries, m2.entries, m2.keys);
    DistinctCard(Among(m1.keys, m2.keys, false));
    MissingKeys(m1, m2, data1, data2);
  }

  /** `compareDifferences` on the summaries of two catalogs: a song is listed as only in the
      first file exactly when no record of the second has its name and album; each such
      name and album is listed once, the first file's entry for it being that of one of its
      records, and the list is sorted by album. The second list is the same with the files
      swapped. */
  lemma SongsOnlyInFirst(data1: seq<Song>, data2: seq<Song>)
    ensures var d := Compare(Summarize(data1), Summarize(data2)).songs.onlyInFile1;
      forall e :: e in d ==> (exists x :: x in data1 && RecordEntry(x) == e) && EntryKey(e) !in RecordKeys(data2)
    ensures var d := Compare(Summarize(data1), Summarize(data2)).songs.onlyInFile1;
      forall x :: x in data1 && RecordKey(x) !in RecordKeys(data2) ==> exists e :: e in d && EntryKey(e) == RecordKey(x)
    ensures |Compare(Summarize(data1), Summarize(data2)).songs.onlyInFile1| == |RecordKeys(data1) - RecordKeys(data2)|
    ensures SortedBy(Compare(Summarize(data1), Summarize(data2)).songs.onlyInFile1, AlbumOfEntry, StrLe)
  {
    var m1, m2 := SongMap(Summarize(data1).songsByAlbum), SongMap(Summarize(data2).songsByAlbum);
    assert Compare(Summarize(data1), Summarize(data2)).songs == SongDifferences(m1, m2);
    SongMapRecords(data1);
    SongMapRecords(data2);
    OnlyInFirstSound(m1, m2, data1, data2);
    OnlyInFirstComplete(m1, m2, data1, data2);
    OnlyInFirstCount(m1, m2, data1, data2);
    StrLeIsTotalOrder();
    SortSorted(Unmatched(m1.keys, m1.entries, m2.entries), AlbumOfEntry, StrLe);
  }

  lemma SongMapRecords(data: seq<Song>)
    ensures MapsRecords(SongMap(Summarize(data).songsByAlbum), data)
  {
    var m := SongMap(Summarize(data).songsByAlbum);
    forall k ensures (k in m.entries <==> k in RecordKeys(data))
      ensures k in m.entries ==> exists x :: x in data && RecordKey(x) == k && m.entries[k] == RecordEntry(x)
    {
      SongMapOfData(data, k);
    }
  }

  /** Comparing the files the other way round swaps every "only in" list and keeps the
      common albums. */
  lemma CompareSwap(a1: Summary, a2: Summary)
    requires Distinct(a1.albums.keys) && Distinct(a2.albums.keys)
    ensures Compare(a2, a1).albums == AlbumDiff(Compare(a1, a2).albums.onlyInFile2, Compare(a1, a2).albums.onlyInFile1, Compare(a1, a2).albums.commonAlbums)
    ensures Compare(a2, a1).songs == SongDiff(Compare(a1, a2).songs.onlyInFile2, Compare(a1, a2).songs.onlyInFile1)
  {
    AlbumDiffSwap(a1.albums.keys, a2.albums.keys);
  }
}
