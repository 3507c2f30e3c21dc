/** The merge planner of scripts/lib/merge.js: identity keys, the classification of a
    secondary catalog's records as new or duplicate, the merged list, the batch fold over
    several secondary catalogs, and the array-or-object shape of the saved document. */
module Merge {
  import opened Orders
  import opened Seqs
  import opened Tracks

  // ---------------------------------------------------------------------------
  // Identity keys

  /** `generateSongKey`: `id_<id>` under "id", `name@@artist@@album` under
      "name+artist+album", and `name@@album` under any other strategy. */
  function GenerateSongKey(song: Song, strategy: string): string {
    if strategy == "id" then "id_" + ShowScalar(song.id)
    else if strategy == "name+artist+album" then
      Show(song.name) + "@@" + Show(song.artist) + "@@" + Show(song.album)
    else Show(song.name) + "@@" + Show(song.album)
  }

  /** Under "id", two records share a key exactly when their ids render alike. */
  lemma IdKeysEqual(a: Song, b: Song)
    ensures GenerateSongKey(a, "id") == GenerateSongKey(b, "id") <==> ShowScalar(a.id) == ShowScalar(b.id)
  {
    var x, y := ShowScalar(a.id), ShowScalar(b.id);
    assert ("id_" + x)[3..] == x && ("id_" + y)[3..] == y;
  }

  /** Under "id", every record without an id gets the key `id_undefined`, so all of them
      collide with each other, and with a record whose id is the string "undefined". */
  lemma MissingIdsCollide(a: Song, b: Song)
    requires a.id == Missing && (b.id == Missing || b.id == Text("undefined"))
    ensures GenerateSongKey(a, "id") == "id_undefined" == GenerateSongKey(b, "id")
  {
  }

  /** Under "id", the number 12 and the string "12" give the same key. */
  lemma NumericAndStringIdsCollide(a: Song, b: Song)
    requires a.id == Number(12) && b.id == Text("12")
    ensures GenerateSongKey(a, "id") == GenerateSongKey(b, "id")
  {
    assert Js.Digits(12) == "12" by {
      assert Js.Digits(1) == "1";
    }
  }

  /** Any strategy other than "id" and "name+artist+album" behaves as "name+album". */
  lemma UnknownStrategyIsNameAlbum(song: Song, strategy: string)
    requires strategy != "id" && strategy != "name+artist+album"
    ensures GenerateSongKey(song, strategy) == GenerateSongKey(song, "name+album")
    ensures GenerateSongKey(song, strategy) == Show(song.name) + "@@" + Show(song.album)
  {
  }

  /** Under "name+album", when neither name contains '@', two records share a key exactly
      when their names and their albums render alike. */
  lemma NameAlbumKeysEqual(a: Song, b: Song)
    requires '@' !in Show(a.name) && '@' !in Show(b.name)
    ensures GenerateSongKey(a, "name+album") == GenerateSongKey(b, "name+album")
        <==> Show(a.name) == Show(b.name) && Show(a.album) == Show(b.album)
  {
    if GenerateSongKey(a, "name+album") == GenerateSongKey(b, "name+album") {
      NoSeparatorSplit(Show(a.name), Show(a.album), Show(b.name), Show(b.album));
    }
  }

  /** The separator may occur inside a field, so different records can share a key:
      name "a@@b" on album "c" and name "a" on album "b@@c" both give "a@@b@@c". */
  lemma SeparatorInFieldCollides(a: Song, b: Song)
    requires a.name == Str("a@@b") && a.album == Str("c")
    requires b.name == Str("a") && b.album == Str("b@@c")
    ensures a != b
    ensures GenerateSongKey(a, "name+album") == GenerateSongKey(b, "name+album") == "a@@b@@c"
  {
  }

  // ---------------------------------------------------------------------------
  // Classification of the secondary records

  /** `mainMap` after the first `forEach`: each key of `songs` maps to the last record
      that has it. Its key set is `mainKeys`. */
  function KeyMap(songs: seq<Song>, strategy: string): map<string, Song> {
    if songs == [] then map[]
    else KeyMap(songs[..|songs| - 1], strategy)[GenerateSongKey(songs[|songs| - 1], strategy) := songs[|songs| - 1]]
  }

  /** Every record's key is in the map, and every key maps to a record that has it. */
  lemma {:induction false} KeyMapDomain(songs: seq<Song>, strategy: string)
    ensures forall x :: x in songs ==> GenerateSongKey(x, strategy) in KeyMap(songs, strategy)
    ensures forall k :: k in KeyMap(songs, strategy) ==>
      KeyMap(songs, strategy)[k] in songs && GenerateSongKey(KeyMap(songs, strategy)[k], strategy) == k
  {
    if songs != [] {
      var prev := songs[..|songs| - 1];
      KeyMapDomain(prev, strategy);
      assert songs == prev + [songs[|songs| - 1]];
    }
  }

  /** Last write wins: a key maps to the last record of `songs` that has it. */
  lemma {:induction false} KeyMapLastWins(songs: seq<Song>, strategy: string, i: nat)
    requires i < |songs|
    requires forall j :: i < j < |songs| ==> GenerateSongKey(songs[j], strategy) != GenerateSongKey(songs[i], strategy)
    ensures GenerateSongKey(songs[i], strategy) in KeyMap(songs, strategy)
    ensures KeyMap(songs, strategy)[GenerateSongKey(songs[i], strategy)] == songs[i]
  {
    if i < |songs| - 1 {
      var prev := songs[..|songs| - 1];
      assert prev[i] == songs[i];
      forall j | i < j < |prev| ensures GenerateSongKey(prev[j], strategy) != GenerateSongKey(prev[i], strategy) {
        assert prev[j] == songs[j];
      }
      KeyMapLastWins(prev, strategy, i);
    }
  }

  /** The records of `songs` whose key is not in `mainKeys`, in order: `newSongs`. */
  function FreshSongs(mainKeys: set<string>, songs: seq<Song>, strategy: string): (r: seq<Song>)
    ensures |r| <= |songs|
  {
    if songs == [] then []
    else
      var last := songs[|songs| - 1];
      FreshSongs(mainKeys, songs[..|songs| - 1], strategy)
        + (if GenerateSongKey(last, strategy) in mainKeys then [] else [last])
  }

  /** One `duplicates` entry per record of `songs` whose key is in `mainMap`, in order. */
  function DuplicateEntries(mainMap: map<string, Song>, songs: seq<Song>, strategy: string): (r: seq<Duplicate>)
    ensures |r| <= |songs|
  {
    if songs == [] then []
    else
      var last := songs[|songs| - 1];
      var key := GenerateSongKey(last, strategy);
      DuplicateEntries(mainMap, songs[..|songs| - 1], strategy)
        + (if key in mainMap then [Duplicate(key, mainMap[key], last)] else [])
  }

  datatype Duplicate = Duplicate(key: string, main: Song, secondary: Song)

  /** The result of `analyzeDifferences`. */
  datatype Analysis = Analysis(
    mainCount: nat,
    secondaryCount: nat,
    newSongs: seq<Song>,
    duplicates: seq<Duplicate>,
    newCount: nat,
    duplicateCount: nat)

  /** The records of `secondary` that `analyzeDifferences` classifies as new. */
  function NewSongs(main: seq<Song>, secondary: seq<Song>, strategy: string): seq<Song> {
    FreshSongs(KeyMap(main, strategy).Keys, secondary, strategy)
  }

  /** The records of `secondary` that `analyzeDifferences` classifies as duplicates. */
  function Duplicates(main: seq<Song>, secondary: seq<Song>, strategy: string): seq<Duplicate> {
    DuplicateEntries(KeyMap(main, strategy), secondary, strategy)
  }

  /** The analysis `analyzeDifferences` returns for these inputs. */
  function Analyze(main: seq<Song>, secondary: seq<Song>, strategy: string): Analysis {
    var news := NewSongs(main, secondary, strategy);
    var dups := Duplicates(main, secondary, strategy);
    Analysis(|main|, |secondary|, news, dups, |news|, |dups|)
  }

  /** `analyzeDifferences`: collect the main keys, then put every secondary record
      either among the new songs or among the duplicates. */
  method AnalyzeDifferences(mainData: seq<Song>, secondaryData: seq<Song>, strategy: string) returns (a: Analysis)
    ensures a.mainCount == |mainData| && a.secondaryCount == |secondaryData|
    ensures a.newSongs == NewSongs(mainData, secondaryData, strategy)
    ensures a.duplicates == Duplicates(mainData, secondaryData, strategy)
    ensures a.newCount == |a.newSongs| && a.duplicateCount == |a.duplicates|
    ensures a.newCount + a.duplicateCount == a.secondaryCount
    ensures a == Analyze(mainData, secondaryData, strategy)
  {
    var mainKeys: set<string> := {};
    var mainMap: map<string, Song> := map[];
    var i := 0;
    while i < |mainData|
      invariant 0 <= i <= |mainData|
      invariant mainMap == KeyMap(mainData[..i], strategy)
      invariant mainKeys == mainMap.Keys
    {
      var key := GenerateSongKey(mainData[i], strategy);
      KeyMapStep(mainData, strategy, i);
      mainKeys := mainKeys + {key};
      mainMap := mainMap[key := mainData[i]];
      i := i + 1;
    }
    assert mainData[..i] == mainData;
    var newSongs: seq<Song> := [];
    var duplicates: seq<Duplicate> := [];
    var j := 0;
    while j < |secondaryData|
      invariant 0 <= j <= |secondaryData|
      invariant newSongs == FreshSongs(mainKeys, secondaryData[..j], strategy)
      invariant duplicates == DuplicateEntries(mainMap, secondaryData[..j], strategy)
      invariant |newSongs| + |duplicates| == j
    {
      var song := secondaryData[j];
      var key := GenerateSongKey(song, strategy);
      SecondaryStep(mainMap, secondaryData, strategy, j);
      if key in mainKeys {
        duplicates := duplicates + [Duplicate(key, mainMap[key], song)];
      } else {
        newSongs := newSongs + [song];
      }
      j := j + 1;
    }
    assert secondaryData[..j] == secondaryData;
    a := Analysis(|mainData|, |secondaryData|, newSongs, duplicates, |newSongs|, |duplicates|);
  }

  lemma KeyMapStep(songs: seq<Song>, strategy: string, i: nat)
    requires i < |songs|
    ensures KeyMap(songs[..i + 1], strategy) == KeyMap(songs[..i], strategy)[GenerateSongKey(songs[i], strategy) := songs[i]]
  {
    assert songs[..i + 1][..i] == songs[..i];
  }

  lemma SecondaryStep(mainMap: map<string, Song>, songs: seq<Song>, strategy: string, j: nat)
    requires j < |songs|
    ensures FreshSongs(mainMap.Keys, songs[..j + 1], strategy) == FreshSongs(mainMap.Keys, songs[..j], strategy)
      + (if GenerateSongKey(songs[j], strategy) in mainMap then [] else [songs[j]])
    ensures DuplicateEntries(mainMap, songs[..j + 1], strategy) == DuplicateEntries(mainMap, songs[..j], strategy)
      + (if GenerateSongKey(songs[j], strategy) in mainMap
         then [Duplicate(GenerateSongKey(songs[j], strategy), mainMap[GenerateSongKey(songs[j], strategy)], songs[j])]
         else [])
  {
    var next := songs[..j + 1];
    assert next[..j] == songs[..j] && next[j] == songs[j];
  }

  /** Every secondary record is counted exactly once: as new or as a duplicate. */
  lemma {:induction false} SecondaryPartition(main: seq<Song>, secondary: seq<Song>, strategy: string)
    ensures |NewSongs(main, secondary, strategy)| + |Duplicates(main, secondary, strategy)| == |secondary|
  {
    if secondary != [] {
      SecondaryPartition(main, secondary[..|secondary| - 1], strategy);
    }
  }

  lemma {:induction false} FreshSongsMembers(mainKeys: set<string>, songs: seq<Song>, strategy: string)
    ensures forall x :: x in FreshSongs(mainKeys, songs, strategy) <==> x in songs && GenerateSongKey(x, strategy) !in mainKeys
  {
    if songs != [] {
      var prev := songs[..|songs| - 1];
      FreshSongsMembers(mainKeys, prev, strategy);
      assert songs == prev + [songs[|songs| - 1]];
    }
  }

  lemma {:induction false} FreshSongsNone(mainKeys: set<string>, songs: seq<Song>, strategy: string)
    requires forall x :: x in songs ==> GenerateSongKey(x, strategy) in mainKeys
    ensures FreshSongs(mainKeys, songs, strategy) == []
  {
    if songs != [] {
      var prev := songs[..|songs| - 1];
      assert forall x :: x in prev ==> x in songs;
      FreshSongsNone(mainKeys, prev, strategy);
    }
  }

  /** A secondary record is new exactly when no main record has its key. */
  lemma NewIffKeyAbsent(main: seq<Song>, secondary: seq<Song>, strategy: string, x: Song)
    ensures x in NewSongs(main, secondary, strategy)
        <==> x in secondary && forall y :: y in main ==> GenerateSongKey(y, strategy) != GenerateSongKey(x, strategy)
  {
    FreshSongsMembers(KeyMap(main, strategy).Keys, secondary, strategy);
    KeyMapDomain(main, strategy);
  }

  lemma {:induction false} FreshSongsAppend(mainKeys: set<string>, a: seq<Song>, b: seq<Song>, strategy: string)
    ensures FreshSongs(mainKeys, a + b, strategy) == FreshSongs(mainKeys, a, strategy) + FreshSongs(mainKeys, b, strategy)
    decreases |b|
  {
    if b == [] {
      assert a + b == a;
    } else {
      var b' := b[..|b| - 1];
      assert (a + b)[..|a + b| - 1] == a + b';
      FreshSongsAppend(mainKeys, a, b', strategy);
    }
  }

  /** Classification goes record by record: the new songs of a concatenation are the new
      songs of each part, in order. Only the main keys are consulted, so two secondary
      records with the same fresh key are both new. */
  lemma NewSongsAppend(main: seq<Song>, a: seq<Song>, b: seq<Song>, strategy: string)
    ensures NewSongs(main, a + b, strategy) == NewSongs(main, a, strategy) + NewSongs(main, b, strategy)
  {
    FreshSongsAppend(KeyMap(main, strategy).Keys, a, b, strategy);
  }

  lemma RepeatedFreshRecordBothNew(main: seq<Song>, x: Song, strategy: string)
    requires forall y :: y in main ==> GenerateSongKey(y, strategy) != GenerateSongKey(x, strategy)
    ensures NewSongs(main, [x, x], strategy) == [x, x]
  {
    var keys := KeyMap(main, strategy).Keys;
    KeyMapDomain(main, strategy);
    assert GenerateSongKey(x, strategy) !in keys;
    assert [x, x][..1] == [x];
    assert [x][..0] == [];
    assert FreshSongs(keys, [x], strategy) == [x];
    assert FreshSongs(keys, [x, x], strategy) == [x] + [x];
  }

  /** Each duplicate entry pairs a secondary record with the last main record of the same key. */
  lemma {:induction false} DuplicateEntriesShape(mainMap: map<string, Song>, songs: seq<Song>, strategy: string)
    ensures forall d :: d in DuplicateEntries(mainMap, songs, strategy) ==>
      d.secondary in songs && d.key == GenerateSongKey(d.secondary, strategy) && d.key in mainMap && d.main == mainMap[d.key]
  {
    if songs != [] {
      var prev := songs[..|songs| - 1];
      DuplicateEntriesShape(mainMap, prev, strategy);
      assert songs == prev + [songs[|songs| - 1]];
    }
  }

  // ---------------------------------------------------------------------------
  // Building the merged list

  /** `config.mergeStrategy`. `keepMainOrder` is never read and is not modelled;
      a missing `appendPosition` is any string other than "start" and "end". */
  datatype MergeStrategy = MergeStrategy(uniqueBy: string, appendPosition: string, sortNewByAlbum: bool)

  const DefaultMergeStrategy := MergeStrategy("name+album", "end", true)

  /** The comparator of the new-song sort: album, then name, a missing or empty one as ''. */
  function SortKey(song: Song): (string, string) {
    (OrElse(song.album, ""), OrElse(song.name, ""))
  }

  /** `songsToAdd`: a copy of the new songs, sorted stably by (album, name) if asked. */
  function SongsToAdd(newSongs: seq<Song>, sortNewByAlbum: bool): (r: seq<Song>)
    ensures multiset(r) == multiset(newSongs)
    ensures !sortNewByAlbum ==> r == newSongs
    ensures sortNewByAlbum ==> SortedBy(r, SortKey, PairLe)
  {
    if sortNewByAlbum then
      PairLeIsTotalOrder();
      SortSorted(newSongs, SortKey, PairLe);
      SortByKey(newSongs, SortKey, PairLe)
    else newSongs
  }

  /** The sort is stable: new songs with the same (album, name) keep their order. */
  lemma SongsToAddStable(newSongs: seq<Song>, k: (string, string))
    ensures WithKey(SongsToAdd(newSongs, true), SortKey, k) == WithKey(newSongs, SortKey, k)
  {
    PairLeIsTotalOrder();
    SortStable(newSongs, SortKey, PairLe, k);
  }

  /** `mergeData`: the main records, unchanged and in order, with the block of new songs
      before them when `appendPosition` is "start" and after them otherwise. */
  function MergeData(mainData: seq<Song>, newSongs: seq<Song>, strategy: MergeStrategy): (r: seq<Song>)
    ensures |r| == |mainData| + |newSongs|
    ensures multiset(r) == multiset(mainData) + multiset(newSongs)
    ensures strategy.appendPosition == "start" ==>
      r[|newSongs|..] == mainData && r[..|newSongs|] == SongsToAdd(newSongs, strategy.sortNewByAlbum)
    ensures strategy.appendPosition != "start" ==>
      r[..|mainData|] == mainData && r[|mainData|..] == SongsToAdd(newSongs, strategy.sortNewByAlbum)
  {
    var songsToAdd := SongsToAdd(newSongs, strategy.sortNewByAlbum);
    if strategy.appendPosition == "start" then songsToAdd + mainData else mainData + songsToAdd
  }

  /** Merging is idempotent: once the new songs are merged in, analysing the same
      secondary records against the merged list finds nothing new. */
  lemma MergeIdempotent(mainData: seq<Song>, secondary: seq<Song>, uniqueBy: string, strategy: MergeStrategy)
    ensures NewSongs(MergeData(mainData, NewSongs(mainData, secondary, uniqueBy), strategy), secondary, uniqueBy) == []
  {
    var news := NewSongs(mainData, secondary, uniqueBy);
    var merged := MergeData(mainData, news, strategy);
    var keys := KeyMap(merged, uniqueBy).Keys;
    KeyMapDomain(merged, uniqueBy);
    forall x | x in secondary ensures GenerateSongKey(x, uniqueBy) in keys {
      assert x in multiset(secondary);
      NewIffKeyAbsent(mainData, secondary, uniqueBy, x);
      if x in news {
        assert x in multiset(merged);

      } else {
        var y :| y in mainData && GenerateSongKey(y, uniqueBy) == GenerateSongKey(x, uniqueBy);
        assert y in multiset(merged);

      }
    }
    FreshSongsNone(keys, secondary, uniqueBy);
  }

  // ---------------------------------------------------------------------------
  // The shape of a catalog document

  /** A parsed catalog document: a bare array of records, or an object whose `data`
      member (absent, null or otherwise falsy when None) holds them. */
  datatype Document = ArrayDocument(items: seq<Song>) | ObjectDocument(data: Option<seq<Song>>)

  /** What `readJsonFile` keeps of a document: the records and whether it was an array. */
  datatype LoadedFile = LoadedFile(data: seq<Song>, isArrayFormat: bool)

  function ReadJson(doc: Document): (f: LoadedFile)
    ensures f.isArrayFormat <==> doc.ArrayDocument?
  {
    match doc
    case ArrayDocument(items) => LoadedFile(items, true)
    case ObjectDocument(data) => LoadedFile(if data.Some? then data.value else [], false)
  }

  /** The document `saveMergedData` writes: a bare array, or `{ data: [...] }`. */
  function SaveMergedData(mergedData: seq<Song>, isArrayFormat: bool): (doc: Document)
    ensures doc.ArrayDocument? <==> isArrayFormat
  {
    if isArrayFormat then ArrayDocument(mergedData) else ObjectDocument(Some(mergedData))
  }

  /** Reading back a saved document gives the merged records and the shape they were saved in. */
  lemma SaveReadRoundTrip(mergedData: seq<Song>, isArrayFormat: bool)
    ensures ReadJson(SaveMergedData(mergedData, isArrayFormat)) == LoadedFile(mergedData, isArrayFormat)
  {
  }

  /** The saved document has the shape of the main document it was read from. */
  lemma ShapeMirrored(main: Document, mergedData: seq<Song>)
    ensures SaveMergedData(mergedData, ReadJson(main).isArrayFormat).ArrayDocument? == main.ArrayDocument?
  {
  }

  // ---------------------------------------------------------------------------
  // Batch merge

  datatype SecondaryFile = SecondaryFile(path: string, data: seq<Song>)

  /** The options `batchMerge` reads: `uniqueBy` (None when absent) and `mergeStrategy`. */
  datatype BatchOptions = BatchOptions(uniqueBy: Option<string>, mergeStrategy: Option<MergeStrategy>)

  datatype StepResult = StepResult(file: string, newCount: nat, duplicateCount: nat)

  datatype BatchResult = BatchResult(success: bool, totalAdded: nat, results: seq<StepResult>, finalCount: nat)

  /** `options.uniqueBy || 'name+album'`. */
  function BatchUniqueBy(options: BatchOptions): string {
    if options.uniqueBy.Some? && options.uniqueBy.value != "" then options.uniqueBy.value else "name+album"
  }

  /** `options.mergeStrategy || config.mergeStrategy`. */
  function BatchStrategy(options: BatchOptions): MergeStrategy {
    if options.mergeStrategy.Some? then options.mergeStrategy.value else DefaultMergeStrategy
  }

  /** One step of the fold: merge in what is new in `data` relative to `current`. */
  function BatchStep(current: seq<Song>, data: seq<Song>, options: BatchOptions): seq<Song> {
    var news := NewSongs(current, data, BatchUniqueBy(options));
    if |news| > 0 then MergeData(current, news, BatchStrategy(options)) else current
  }

  /** `currentData` after processing `files` in order, starting from `initial`. */
  function BatchData(initial: seq<Song>, files: seq<SecondaryFile>, options: BatchOptions): seq<Song> {
    if files == [] then initial
    else BatchStep(BatchData(initial, files[..|files| - 1], options), files[|files| - 1].data, options)
  }

  /** `results` after processing `files`: each file is analysed against the data
      accumulated from the files before it. */
  function BatchResults(initial: seq<Song>, files: seq<SecondaryFile>, options: BatchOptions): (r: seq<StepResult>)
    ensures |r| == |files|
  {
    if files == [] then []
    else
      var prefix := files[..|files| - 1];
      var file := files[|files| - 1];
      var current := BatchData(initial, prefix, options);
      var u := BatchUniqueBy(options);
      BatchResults(initial, prefix, options)
        + [StepResult(file.path, |NewSongs(current, file.data, u)|, |Duplicates(current, file.data, u)|)]
  }

  function SumNew(results: seq<StepResult>): nat {
    if results == [] then 0 else SumNew(results[..|results| - 1]) + results[|results| - 1].newCount
  }

  /** `batchMerge`: fold the secondary files into the main records one after another,
      then save the result in the shape of the main document. */
  method BatchMerge(mainFile: Document, secondaryFiles: seq<SecondaryFile>, options: BatchOptions)
    returns (result: BatchResult, saved: Document)
    ensures result.results == BatchResults(ReadJson(mainFile).data, secondaryFiles, options)
    ensures result.totalAdded == SumNew(result.results)
    ensures saved == SaveMergedData(BatchData(ReadJson(mainFile).data, secondaryFiles, options), ReadJson(mainFile).isArrayFormat)
    ensures result.finalCount == |BatchData(ReadJson(mainFile).data, secondaryFiles, options)|
    ensures result.success
  {
    var initial := ReadJson(mainFile).data;
    var currentData := initial;
    var isArrayFormat := ReadJson(mainFile).isArrayFormat;
    var results: seq<StepResult> := [];
    var totalAdded := 0;
    var index := 0;
    while index < |secondaryFiles|
      invariant 0 <= index <= |secondaryFiles|
      invariant currentData == BatchData(initial, secondaryFiles[..index], options)
      invariant results == BatchResults(initial, secondaryFiles[..index], options)
      invariant totalAdded == SumNew(results)
    {
      var secondaryFile := secondaryFiles[index];
      var analysis := AnalyzeDifferences(currentData, secondaryFile.data, BatchUniqueBy(options));
      ghost var before := currentData;
      ghost var next := secondaryFiles[..index + 1];
      assert next[..index] == secondaryFiles[..index] && next[index] == secondaryFile;
      if analysis.newCount > 0 {
        currentData := MergeData(currentData, analysis.newSongs, BatchStrategy(options));
        totalAdded := totalAdded + analysis.newCount;
      }
      assert currentData == BatchStep(before, secondaryFile.data, options);
      var step := StepResult(secondaryFile.path, analysis.newCount, analysis.duplicateCount);
      assert BatchResults(initial, next, options) == results + [step];
      results := results + [step];
      assert results[..|results| - 1] == BatchResults(initial, secondaryFiles[..index], options);
      index := index + 1;
    }
    assert secondaryFiles[..index] == secondaryFiles;
    saved := SaveMergedData(currentData, isArrayFormat);
    result := BatchResult(true, totalAdded, results, |currentData|);
  }

  /** The final record count is the initial count plus every step's new songs. */
  lemma {:induction false} BatchCount(initial: seq<Song>, files: seq<SecondaryFile>, options: BatchOptions)
    ensures |BatchData(initial, files, options)| == |initial| + SumNew(BatchResults(initial, files, options))
  {
    if files != [] {
      var prefix := files[..|files| - 1];
      BatchCount(initial, prefix, options);
      var r := BatchResults(initial, files, options);
      assert r[..|r| - 1] == BatchResults(initial, prefix, options);
    }
  }

  lemma {:induction false} BatchPrefix(initial: seq<Song>, files: seq<SecondaryFile>, options: BatchOptions, n: nat)
    requires n <= |files|
    ensures BatchResults(initial, files, options)[..n] == BatchResults(initial, files[..n], options)
    decreases |files|
  {
    if n < |files| {
      var prefix := files[..|files| - 1];
      BatchPrefix(initial, prefix, options, n);
      assert prefix[..n] == files[..n];
    } else {
      assert files[..n] == files;
    }
  }

  /** Step `i` is analysed against the records accumulated from the files before it,
      not against the original main records. */
  lemma BatchStepAgainstAccumulated(initial: seq<Song>, files: seq<SecondaryFile>, options: BatchOptions, i: nat)
    requires i < |files|
    ensures BatchResults(initial, files, options)[i].newCount
         == |NewSongs(BatchData(initial, files[..i], options), files[i].data, BatchUniqueBy(options))|
  {
    BatchPrefix(initial, files, options, i + 1);
    assert files[..i + 1][..i] == files[..i];
  }

  /** A step that is repeated with the same records adds nothing the second time. */
  lemma BatchStepIdempotent(current: seq<Song>, data: seq<Song>, options: BatchOptions)
    ensures NewSongs(BatchStep(current, data, options), data, BatchUniqueBy(options)) == []
    ensures BatchStep(BatchStep(current, data, options), data, options) == BatchStep(current, data, options)
  {
    var u := BatchUniqueBy(options);
    var news := NewSongs(current, data, u);
    if |news| > 0 {
      MergeIdempotent(current, data, u, BatchStrategy(options));
    } else {
      assert news == [];
    }
  }

  /** Folding the same file in twice adds nothing the second time. */
  lemma BatchRepeatAddsNothing(initial: seq<Song>, f: SecondaryFile, options: BatchOptions)
    ensures BatchResults(initial, [f, f], options)[1].newCount == 0
    ensures BatchData(initial, [f, f], options) == BatchData(initial, [f], options)
  {
    assert [f, f][..1] == [f];
    assert [f][..0] == [];
    assert BatchData(initial, [f], options) == BatchStep(initial, f.data, options);
    BatchStepIdempotent(initial, f.data, options);
  }
}
