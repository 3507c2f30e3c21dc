/** The merge preview and the merge report of scripts/lib/merge.js: the new songs grouped by
    album (a missing album under the sentinel label), the groups listed in sorted order,
    and the statistics around them. A report is its sequence of lines, one per `lines.push`;
    the box-drawing and emoji decoration of a line is not modelled. */
module MergeReport {
  import opened Orders
  import opened Seqs
  import opened Js
  import opened Tracks
  import opened Merge

  // ---------------------------------------------------------------------------
  // Grouping by album

  /** `songsByAlbum` after the songs are pushed one by one: each song is appended to the
      group of its album, and the group is created when the album is new. */
  function GroupMap(songs: seq<Song>): map<string, seq<Song>> {
    if songs == [] then map[]
    else
      var m := GroupMap(songs[..|songs| - 1]);
      var last := songs[|songs| - 1];
      var a := AlbumOf(last);
      m[a := (if a in m then m[a] else []) + [last]]
  }

  /** The groups are keyed by exactly the albums of the songs, and each group holds the songs
      of its album in input order. */
  lemma {:induction false} GroupMapSpec(songs: seq<Song>)
    ensures forall a :: a in GroupMap(songs) <==> a in Albums(songs)
    ensures forall a :: a in GroupMap(songs) ==> GroupMap(songs)[a] == WithKey(songs, AlbumOf, a)
  {
    if songs != [] {
      var prefix := songs[..|songs| - 1];
      var song := songs[|songs| - 1];
      var album := AlbumOf(song);
      GroupMapSpec(prefix);
      AlbumsSpec(prefix);
      assert songs == prefix + [song];
      assert [song][1..] == [];
      forall a | a in GroupMap(songs) ensures GroupMap(songs)[a] == WithKey(songs, AlbumOf, a) {
        WithKeyAppend(prefix, [song], AlbumOf, a);
        assert WithKey([song], AlbumOf, a) == if album == a then [song] else [];
        if a !in GroupMap(prefix) {
          WithKeyNone(prefix, AlbumOf, a);
        }
      }
    }
  }

  /** The `forEach` that fills `songsByAlbum`: a missing or empty album goes to the
      sentinel bucket, and each bucket is created on the first song of its album. */
  method GroupByAlbum(songs: seq<Song>) returns (groups: OrderedMap<string, seq<Song>>)
    ensures groups.Valid()
    ensures groups.keys == Albums(songs)
    ensures groups.entries == GroupMap(songs)
  {
    groups := EmptyMap();
    var i := 0;
    while i < |songs|
      invariant 0 <= i <= |songs|
      invariant groups.Valid()
      invariant groups.keys == Albums(songs[..i])
      invariant groups.entries == GroupMap(songs[..i])
    {
      var song := songs[i];
      var album := AlbumOf(song);
      GroupStep(songs, i);
      assert album in groups.entries <==> album in groups.keys;
      // Creating the empty group and pushing onto it is one update of the map.
      var group := if album in groups.entries then groups.entries[album] else [];
      groups := groups.Set(album, group + [song]);
      i := i + 1;
    }
    assert songs[..i] == songs;
  }

  /** Pushing the song at index `i` creates its album's group when the album is new, and
      appends the song to that group. */
  lemma GroupStep(songs: seq<Song>, i: nat)
    requires i < |songs|
    ensures var prefix, a := songs[..i], AlbumOf(songs[i]);
      && Albums(songs[..i + 1]) == (if a in Albums(prefix) then Albums(prefix) else Albums(prefix) + [a])
      && GroupMap(songs[..i + 1]) == GroupMap(prefix)[a := (if a in GroupMap(prefix) then GroupMap(prefix)[a] else []) + [songs[i]]]
  {
    assert songs[..i + 1][..i] == songs[..i];
  }

  /** `Object.keys(songsByAlbum).sort()`: the albums in ascending order. */
  function SortedAlbums(songs: seq<Song>): seq<string> {
    SortByKey(Albums(songs), Self, StrLe)
  }

  /** The sorted albums are strictly ascending and are exactly the albums of the songs. */
  lemma SortedAlbumsSpec(songs: seq<Song>)
    ensures forall i, j :: 0 <= i < j < |SortedAlbums(songs)| ==>
      StrLe(SortedAlbums(songs)[i], SortedAlbums(songs)[j]) && SortedAlbums(songs)[i] != SortedAlbums(songs)[j]
    ensures forall a :: a in SortedAlbums(songs) <==> exists x :: x in songs && AlbumOf(x) == a
  {
    var r := SortedAlbums(songs);
    StrLeIsTotalOrder();
    SortSorted(Albums(songs), Self, StrLe);
    AlbumsSpec(songs);
    DistinctPermutation(Albums(songs), r);
    forall a ensures a in r <==> a in Albums(songs) {
      assert a in r <==> a in multiset(r);
    }
  }

  /** Listing the keys in `Object.keys` order before sorting them makes no difference:
      the sorted result depends only on which albums there are. */
  lemma ObjectKeysThenSort(songs: seq<Song>)
    ensures SortByKey(ObjectKeys(Albums(songs)), Self, StrLe) == SortedAlbums(songs)
  {
    var keys := Albums(songs);
    AlbumsSpec(songs);
    DistinctPermutation(keys, ObjectKeys(keys));
    forall x ensures x in ObjectKeys(keys) <==> x in keys {
      assert x in ObjectKeys(keys) <==> x in multiset(ObjectKeys(keys));
    }
    StrLeIsTotalOrder();
    SortSetUnique(ObjectKeys(keys), keys, StrLe);
  }

  /** The grouping as written: a bucket is created only when `songsByAlbum[album]` is
      falsy, and a plain object inherits a truthy value for the names of `Object.prototype`,
      so an album with such a name reaches `push` on a value that has none and throws. */
  function GroupMapAsWritten(songs: seq<Song>): (r: Option<map<string, seq<Song>>>)
    ensures r.Some? <==> forall x :: x in songs ==> AlbumOf(x) !in InheritedNames
    ensures r.Some? ==> r.value == GroupMap(songs)
  {
    if exists x :: x in songs && AlbumOf(x) in InheritedNames then None else Some(GroupMap(songs))
  }

  /** A new song on the album "constructor" makes the as-written grouping throw, while the
      intended grouping puts it in a bucket of its own. */
  lemma ConstructorAlbumThrows(song: Song)
    requires song.album == Str("constructor")
    ensures GroupMapAsWritten([song]).None?
    ensures GroupMap([song]) == map["constructor" := [song]]
  {
    assert [song][..0] == [];
    assert AlbumOf(song) == "constructor";
    assert song in [song] && "constructor" in InheritedNames;
    var empty: seq<Song> := [];
    assert empty + [song] == [song];
    assert GroupMap([song]) == map[]["constructor" := empty + [song]];
  }

  // ---------------------------------------------------------------------------
  // Report lines

  /** The section headings of the preview and the report. */
  datatype Topic = Statistics | AddList | Files | MergeStatistics | Strategy | NewSongDetails | Finished

  /** The counts the preview and the report print. */
  datatype Stat = MainCount | SecondaryCount | NewCount | DuplicateCount | MergedTotal | AlbumCount

  /** The text values the report prints. */
  datatype Item = GeneratedAt | MainPath | SecondaryPath | OutputPath | UniqueBy

  /** Where the report says the new songs went: "开头" (start) or "末尾" (end). */
  datatype Position = AtStart | AtEnd

  /** One pushed line. `Decor` is a border or a rule, `Blank` the empty line. */
  datatype Line =
    | Decor
    | Blank
    | Heading(topic: Topic)
    | Count(stat: Stat, n: int)
    | Info(item: Item, value: string)
    | Placement(at: Position)
    | Sorting(byAlbum: bool)
    | AlbumHeader(album: string, size: int)
    | SongEntry(index: int, song: Song)
    | SongArtist(song: Song)
    | SongFormat(song: Song)

  /** The preview prints one line per song; the report prints three and a blank line after
      each album. */
  datatype Style = PreviewStyle | ReportStyle

  /** The lines for the song at 1-based position `index` of its album. */
  function EntryLines(style: Style, index: nat, song: Song): seq<Line> {
    match style
    case PreviewStyle => [SongEntry(index, song)]
    case ReportStyle => [SongEntry(index, song), SongArtist(song), SongFormat(song)]
  }

  /** The lines for the songs of one album, numbered from 1. */
  function SongLines(style: Style, songs: seq<Song>): seq<Line> {
    if songs == [] then []
    else SongLines(style, songs[..|songs| - 1]) + EntryLines(style, |songs|, songs[|songs| - 1])
  }

  /** The lines for one album: its header with its size, then its songs. */
  function GroupLines(style: Style, album: string, songs: seq<Song>): seq<Line> {
    [AlbumHeader(album, |songs|)] + SongLines(style, songs) + (if style == ReportStyle then [Blank] else [])
  }

  /** The lines for the albums `albums`, in that order. */
  function Sections(style: Style, albums: seq<string>, groups: map<string, seq<Song>>): seq<Line>
    requires forall a :: a in albums ==> a in groups
  {
    if albums == [] then []
    else
      var last := albums[|albums| - 1];
      Sections(style, albums[..|albums| - 1], groups) + GroupLines(style, last, groups[last])
  }

  /** The album sections of a listing: the albums in ascending order, each with its songs. */
  function Listing(style: Style, songs: seq<Song>): seq<Line> {
    SortedAlbumsCover(songs);
    Sections(style, SortedAlbums(songs), GroupMap(songs))
  }

  /** The statistics at the head of the preview. */
  function PreviewStats(analysis: Analysis): seq<Line> {
    [Decor, Decor, Decor, Blank, Heading(Statistics),
     Count(MainCount, analysis.mainCount),
     Count(SecondaryCount, analysis.secondaryCount),
     Count(NewCount, analysis.newCount),
     Count(DuplicateCount, analysis.duplicateCount),
     Count(MergedTotal, analysis.mainCount + analysis.newCount),
     Blank]
  }

  /** The list of songs to be added, grouped by album. */
  function PreviewSongs(songs: seq<Song>): seq<Line> {
    AddListSection(Listing(PreviewStyle, songs))
  }

  /** The frame of the preview's song list around its album sections. */
  function AddListSection(listing: seq<Line>): seq<Line> {
    [Decor, Heading(AddList), Decor] + listing + [Blank]
  }

  /** The lines of `generatePreview`: the songs are listed only when there are new ones. */
  function PreviewLines(analysis: Analysis): seq<Line> {
    PreviewStats(analysis) + (if analysis.newCount > 0 then PreviewSongs(analysis.newSongs) else [])
  }

  /** The configuration fields the report prints. */
  datatype ReportConfig = ReportConfig(mainFile: string, secondaryFile: string, outputFile: string, mergeStrategy: MergeStrategy)

  /** The position line as written: "末尾" (end) exactly when `appendPosition` is "end". */
  function PositionLabelAsWritten(appendPosition: string): Position {
    if appendPosition == "end" then AtEnd else AtStart
  }

  /** The position line that matches `mergeData`: "开头" (start) exactly when
      `appendPosition` is "start", since any other value appends at the end. */
  function PositionLabel(appendPosition: string): Position {
    if appendPosition == "start" then AtStart else AtEnd
  }

  /** The label says "start" exactly when the merge puts the new songs first, and "end"
      exactly when it puts them last. */
  lemma PositionLabelAgrees(m: Song, n: Song, strategy: MergeStrategy)
    requires m != n
    ensures PositionLabel(strategy.appendPosition) == AtStart <==> MergeData([m], [n], strategy) == [n, m]
    ensures PositionLabel(strategy.appendPosition) == AtEnd <==> MergeData([m], [n], strategy) == [m, n]
  {
    assert SongsToAdd([n], strategy.sortNewByAlbum) == [n] by {
      var t := SongsToAdd([n], strategy.sortNewByAlbum);
      assert multiset(t) == multiset{n};
      assert t[0] in multiset{n};
    }
  }

  /** A strategy without `appendPosition` (a value that is neither "start" nor "end", such as
      the empty string here) appends the new songs at the end, yet the as-written report
      says they went to the start. */
  lemma PositionLabelAsWrittenMislabels(m: Song, n: Song, strategy: MergeStrategy)
    requires m != n && strategy.appendPosition == ""
    ensures PositionLabelAsWritten(strategy.appendPosition) == AtStart
    ensures MergeData([m], [n], strategy) == [m, n]
  {
    PositionLabelAgrees(m, n, strategy);
  }

  /** The head of the report: time, files, statistics and strategy. */
  function ReportHead(analysis: Analysis, config: ReportConfig, timestamp: string): seq<Line> {
    var strategy := config.mergeStrategy;
    [Decor, Decor, Decor, Blank, Info(GeneratedAt, timestamp), Blank,
     Heading(Files), Decor,
     Info(MainPath, config.mainFile),
     Info(SecondaryPath, config.secondaryFile),
     Info(OutputPath, config.outputFile),
     Blank,
     Heading(MergeStatistics), Decor,
     Count(MainCount, analysis.mainCount),
     Count(SecondaryCount, analysis.secondaryCount),
     Count(NewCount, analysis.newCount),
     Count(DuplicateCount, analysis.duplicateCount),
     Count(MergedTotal, analysis.mainCount + analysis.newCount),
     Blank,
     Heading(Strategy), Decor,
     Info(UniqueBy, strategy.uniqueBy),
     Placement(PositionLabelAsWritten(strategy.appendPosition)),
     Sorting(strategy.sortNewByAlbum),
     Blank]
  }

  /** The report's position line against where `mergeData` puts the new songs: it is right
      for "start" and "end", and for every other value it says "start" while the songs are
      appended at the end. */
  lemma ReportPlacement(analysis: Analysis, config: ReportConfig, timestamp: string, m: Song, n: Song)
    requires m != n
    ensures var strategy := config.mergeStrategy;
      var head, merged := ReportHead(analysis, config, timestamp), MergeData([m], [n], strategy);
      && (strategy.appendPosition == "start" || strategy.appendPosition == "end" ==>
            (Placement(AtStart) in head <==> merged == [n, m]) &&
            (Placement(AtEnd) in head <==> merged == [m, n]))
      && (strategy.appendPosition != "start" && strategy.appendPosition != "end" ==>
            Placement(AtStart) in head && Placement(AtEnd) !in head && merged == [m, n])
  {
    HeadPlacement(analysis, config, timestamp);
    PositionLabelAgrees(m, n, config.mergeStrategy);
  }

  /** The head of the report holds one position line, the as-written label. */
  lemma HeadPlacement(analysis: Analysis, config: ReportConfig, timestamp: string)
    ensures forall at :: Placement(at) in ReportHead(analysis, config, timestamp) <==>
      at == PositionLabelAsWritten(config.mergeStrategy.appendPosition)
  {
    var head := ReportHead(analysis, config, timestamp);
    assert head[23] == Placement(PositionLabelAsWritten(config.mergeStrategy.appendPosition));
    forall k | 0 <= k < |head| && k != 23 ensures !head[k].Placement? {
    }
  }

  /** The details of the new songs: how many albums, then the albums. */
  function ReportSongs(songs: seq<Song>): seq<Line> {
    DetailsSection(|Albums(songs)|, Listing(ReportStyle, songs))
  }

  /** The details section of the report around its album sections. */
  function DetailsSection(albumCount: int, listing: seq<Line>): seq<Line> {
    [Decor, Heading(NewSongDetails), Decor, Blank, Count(AlbumCount, albumCount), Blank] + listing
  }

  const ReportTail: seq<Line> := [Decor, Heading(Finished), Decor]

  /** The lines of `generateMergeReport`, with the time it is generated as a parameter. */
  function ReportLines(analysis: Analysis, config: ReportConfig, timestamp: string): seq<Line> {
    ReportHead(analysis, config, timestamp)
      + (if analysis.newCount > 0 then ReportSongs(analysis.newSongs) else [])
      + ReportTail
  }

  // ---------------------------------------------------------------------------
  // The builders

  /** Push the lines for one album onto `lines`: its header, then its songs. */
  method PushGroup(lines: seq<Line>, style: Style, album: string, songs: seq<Song>) returns (out: seq<Line>)
    ensures out == lines + GroupLines(style, album, songs)
  {
    var head := lines + [AlbumHeader(album, |songs|)];
    out := head;
    var idx := 0;
    while idx < |songs|
      invariant 0 <= idx <= |songs|
      invariant out == head + SongLines(style, songs[..idx])
    {
      SongLinesStep(style, songs, idx);
      out := out + EntryLines(style, idx + 1, songs[idx]);
      idx := idx + 1;
    }
    assert songs[..idx] == songs;
    if style == ReportStyle {
      out := out + [Blank];
    }
  }

  lemma SongLinesStep(style: Style, songs: seq<Song>, idx: nat)
    requires idx < |songs|
    ensures SongLines(style, songs[..idx + 1]) == SongLines(style, songs[..idx]) + EntryLines(style, idx + 1, songs[idx])
  {
    assert songs[..idx + 1][..idx] == songs[..idx];
  }

  /** Push the lines for the albums `albums` of `groups` onto `lines`. */
  method PushSections(lines: seq<Line>, style: Style, albums: seq<string>, groups: map<string, seq<Song>>)
    returns (out: seq<Line>)
    requires forall a :: a in albums ==> a in groups
    ensures out == lines + Sections(style, albums, groups)
  {
    out := lines;
    var k := 0;
    while k < |albums|
      invariant 0 <= k <= |albums|
      invariant out == lines + Sections(style, albums[..k], groups)
    {
      SectionsStep(style, albums, groups, k);
      out := PushGroup(out, style, albums[k], groups[albums[k]]);
      k := k + 1;
    }
    assert albums[..k] == albums;
  }

  /** Push the album sections for `songs`, grouped in `groups`: the albums in ascending
      order, each with its songs. */
  method PushListing(lines: seq<Line>, style: Style, songs: seq<Song>, groups: OrderedMap<string, seq<Song>>)
    returns (out: seq<Line>)
    requires groups.keys == Albums(songs) && groups.entries == GroupMap(songs)
    ensures out == lines + Listing(style, songs)
  {
    var albums := SortByKey(ObjectKeys(groups.keys), Self, StrLe);
    ObjectKeysThenSort(songs);
    SortedAlbumsCover(songs);
    out := PushSections(lines, style, albums, groups.entries);
  }

  lemma SectionsStep(style: Style, albums: seq<string>, groups: map<string, seq<Song>>, k: nat)
    requires k < |albums|
    requires forall a :: a in albums ==> a in groups
    ensures albums[k] in groups
    ensures Sections(style, albums[..k + 1], groups) == Sections(style, albums[..k], groups) + GroupLines(style, albums[k], groups[albums[k]])
  {
    var next := albums[..k + 1];
    assert next[..k] == albums[..k] && next[k] == albums[k];
  }

  /** `generatePreview`. */
  method GeneratePreview(analysis: Analysis) returns (lines: seq<Line>)
    ensures lines == PreviewLines(analysis)
  {
    lines := [Decor, Decor, Decor, Blank, Heading(Statistics),
              Count(MainCount, analysis.mainCount),
              Count(SecondaryCount, analysis.secondaryCount),
              Count(NewCount, analysis.newCount),
              Count(DuplicateCount, analysis.duplicateCount),
              Count(MergedTotal, analysis.mainCount + analysis.newCount),
              Blank];
    if analysis.newCount > 0 {
      ghost var stats := lines;
      var songs := analysis.newSongs;
      lines := lines + [Decor, Heading(AddList), Decor];
      var groups := GroupByAlbum(songs);
      lines := PushListing(lines, PreviewStyle, songs, groups);
      lines := lines + [Blank];
      AppendFrame(stats, [Decor, Heading(AddList), Decor], Listing(PreviewStyle, songs), [Blank]);
    }
  }

  /** `generateMergeReport`. */
  method GenerateMergeReport(analysis: Analysis, config: ReportConfig, timestamp: string) returns (lines: seq<Line>)
    ensures lines == ReportLines(analysis, config, timestamp)
  {
    var strategy := config.mergeStrategy;
    lines := [Decor, Decor, Decor, Blank, Info(GeneratedAt, timestamp), Blank,
              Heading(Files), Decor,
              Info(MainPath, config.mainFile),
              Info(SecondaryPath, config.secondaryFile),
              Info(OutputPath, config.outputFile),
              Blank,
              Heading(MergeStatistics), Decor,
              Count(MainCount, analysis.mainCount),
              Count(SecondaryCount, analysis.secondaryCount),
              Count(NewCount, analysis.newCount),
              Count(DuplicateCount, analysis.duplicateCount),
              Count(MergedTotal, analysis.mainCount + analysis.newCount),
              Blank,
              Heading(Strategy), Decor,
              Info(UniqueBy, strategy.uniqueBy),
              Placement(PositionLabelAsWritten(strategy.appendPosition)),
              Sorting(strategy.sortNewByAlbum),
              Blank];
    if analysis.newCount > 0 {
      lines := PushSongDetails(lines, analysis.newSongs);
    }
    lines := lines + [Decor, Heading(Finished), Decor];
  }

  /** The details section of the report: the album count, then the albums. */
  method PushSongDetails(lines: seq<Line>, songs: seq<Song>) returns (out: seq<Line>)
    ensures out == lines + ReportSongs(songs)
  {
    out := lines + [Decor, Heading(NewSongDetails), Decor, Blank];
    var groups := GroupByAlbum(songs);
    var albumCount := |ObjectKeys(groups.keys)|;
    assert albumCount == |Albums(songs)| by {
      assert |multiset(ObjectKeys(groups.keys))| == |multiset(groups.keys)|;
    }
    out := out + [Count(AlbumCount, albumCount), Blank];
    out := PushListing(out, ReportStyle, songs, groups);
    DetailsAfter(lines, albumCount, Listing(ReportStyle, songs));
  }

  lemma DetailsAfter(lines: seq<Line>, albumCount: int, listing: seq<Line>)
    ensures lines + [Decor, Heading(NewSongDetails), Decor, Blank] + [Count(AlbumCount, albumCount), Blank] + listing
         == lines + DetailsSection(albumCount, listing)
  {
  }

  lemma AppendFrame(a: seq<Line>, b: seq<Line>, c: seq<Line>, d: seq<Line>)
    ensures a + b + c + d == a + (b + c + d)
  {
  }

  // ---------------------------------------------------------------------------
  // What the lines say

  /** The album headers of `lines`, with their sizes, in order. */
  function Headers(lines: seq<Line>): seq<(string, int)> {
    if lines == [] then []
    else
      var last := lines[|lines| - 1];
      Headers(lines[..|lines| - 1]) + (if last.AlbumHeader? then [(last.album, last.size)] else [])
  }

  /** The songs listed in `lines`, in order. */
  function Listed(lines: seq<Line>): seq<Song> {
    if lines == [] then []
    else
      var last := lines[|lines| - 1];
      Listed(lines[..|lines| - 1]) + (if last.SongEntry? then [last.song] else [])
  }

  function SizeSum(headers: seq<(string, int)>): int {
    if headers == [] then 0 else SizeSum(headers[..|headers| - 1]) + headers[|headers| - 1].1
  }

  /** Each album of `albums` with the number of songs of `songs` on it. */
  function Tally(albums: seq<string>, songs: seq<Song>): seq<(string, int)> {
    if albums == [] then []
    else
      var last := albums[|albums| - 1];
      Tally(albums[..|albums| - 1], songs) + [(last, |WithKey(songs, AlbumOf, last)|)]
  }

  lemma {:induction false} HeadersAppend(a: seq<Line>, b: seq<Line>)
    ensures Headers(a + b) == Headers(a) + Headers(b)
    ensures Listed(a + b) == Listed(a) + Listed(b)
    decreases |b|
  {
    if b == [] {
      assert a + b == a;
    } else {
      var b' := b[..|b| - 1];
      assert (a + b)[..|a + b| - 1] == a + b';
      HeadersAppend(a, b');
    }
  }

  lemma {:induction false} SizeSumAppend(a: seq<(string, int)>, b: seq<(string, int)>)
    ensures SizeSum(a + b) == SizeSum(a) + SizeSum(b)
    decreases |b|
  {
    if b == [] {
      assert a + b == a;
    } else {
      var b' := b[..|b| - 1];
      assert (a + b)[..|a + b| - 1] == a + b';
      SizeSumAppend(a, b');
    }
  }

  lemma EntryLinesContent(style: Style, index: nat, song: Song)
    ensures Headers(EntryLines(style, index, song)) == []
    ensures Listed(EntryLines(style, index, song)) == [song]
  {
    var e := EntryLines(style, index, song);
    var one: seq<Line> := [SongEntry(index, song)];
    assert one[..0] == [];
    assert Headers(one) == [] && Listed(one) == [song];
    if style == ReportStyle {
      var two: seq<Line> := one + [SongArtist(song)];
      assert two[..1] == one;
      assert Headers(two) == [] && Listed(two) == [song];
      assert e == two + [SongFormat(song)];
      assert e[..2] == two;
    }
  }

  /** The song lines of an album carry no header and list its songs in order. */
  lemma {:induction false} SongLinesContent(style: Style, songs: seq<Song>)
    ensures Headers(SongLines(style, songs)) == []
    ensures Listed(SongLines(style, songs)) == songs
  {
    if songs != [] {
      var prefix := songs[..|songs| - 1];
      var last := songs[|songs| - 1];
      SongLinesContent(style, prefix);
      HeadersAppend(SongLines(style, prefix), EntryLines(style, |songs|, last));
      EntryLinesContent(style, |songs|, last);
      assert songs == prefix + [last];
    }
  }

  lemma GroupLinesContent(style: Style, album: string, songs: seq<Song>)
    ensures Headers(GroupLines(style, album, songs)) == [(album, |songs|)]
    ensures Listed(GroupLines(style, album, songs)) == songs
  {
    var body := SongLines(style, songs);
    SongLinesContent(style, songs);
    HeaderFrame(album, |songs|, body, style == ReportStyle);
  }

  /** A header, then `body`, then possibly a blank line: one header more than `body`, and
      the songs of `body`. */
  lemma HeaderFrame(album: string, size: int, body: seq<Line>, blank: bool)
    ensures var lines := [AlbumHeader(album, size)] + body + (if blank then [Blank] else []);
      && Headers(lines) == [(album, size)] + Headers(body)
      && Listed(lines) == Listed(body)
  {
    var h: seq<Line> := [AlbumHeader(album, size)];
    var tail: seq<Line> := if blank then [Blank] else [];
    HeadersAppend(h, body);
    HeadersAppend(h + body, tail);
    assert h[..0] == [];
    if blank {
      assert tail[..0] == [];
    }
  }

  /** The groups of `albums`, one after the other. */
  function Grouped(albums: seq<string>, groups: map<string, seq<Song>>): seq<Song>
    requires forall a :: a in albums ==> a in groups
  {
    if albums == [] then []
    else
      var last := albums[|albums| - 1];
      Grouped(albums[..|albums| - 1], groups) + groups[last]
  }

  /** The sections list one header per album, in the given order, with the size of its group. */
  lemma {:induction false} SectionsHeaders(style: Style, albums: seq<string>, groups: map<string, seq<Song>>, songs: seq<Song>)
    requires forall a :: a in albums ==> a in groups && groups[a] == WithKey(songs, AlbumOf, a)
    ensures Headers(Sections(style, albums, groups)) == Tally(albums, songs)
  {
    if albums != [] {
      var prefix := albums[..|albums| - 1];
      var last := albums[|albums| - 1];
      assert forall a :: a in prefix ==> a in albums;
      SectionsHeaders(style, prefix, groups, songs);
      HeadersAppend(Sections(style, prefix, groups), GroupLines(style, last, groups[last]));
      GroupLinesContent(style, last, groups[last]);
    }
  }

  /** Under the headers, the sections list the songs of the groups, album after album. */
  lemma {:induction false} SectionsListed(style: Style, albums: seq<string>, groups: map<string, seq<Song>>)
    requires forall a :: a in albums ==> a in groups
    ensures Listed(Sections(style, albums, groups)) == Grouped(albums, groups)
  {
    if albums != [] {
      var prefix := albums[..|albums| - 1];
      var last := albums[|albums| - 1];
      assert forall a :: a in prefix ==> a in albums;
      SectionsListed(style, prefix, groups);
      HeadersAppend(Sections(style, prefix, groups), GroupLines(style, last, groups[last]));
      GroupLinesContent(style, last, groups[last]);
    }
  }

  /** The sizes in the tally add up to the number of songs in the groups. */
  lemma {:induction false} TallySum(albums: seq<string>, groups: map<string, seq<Song>>, songs: seq<Song>)
    requires forall a :: a in albums ==> a in groups && groups[a] == WithKey(songs, AlbumOf, a)
    ensures SizeSum(Tally(albums, songs)) == |Grouped(albums, groups)|
  {
    if albums != [] {
      var prefix := albums[..|albums| - 1];
      var last := albums[|albums| - 1];
      assert forall a :: a in prefix ==> a in albums;
      TallySum(prefix, groups, songs);
      var one := [(last, |WithKey(songs, AlbumOf, last)|)];
      SizeSumAppend(Tally(prefix, songs), one);
      assert one[..0] == [];
    }
  }

  /** The songs of `songs` whose album is among `albums`, in order. */
  function OnAlbums(songs: seq<Song>, albums: seq<string>): seq<Song> {
    if songs == [] then []
    else (if AlbumOf(songs[0]) in albums then [songs[0]] else []) + OnAlbums(songs[1..], albums)
  }

  lemma {:induction false} OnAlbumsExtend(songs: seq<Song>, albums: seq<string>, a: string)
    requires a !in albums
    ensures multiset(OnAlbums(songs, albums + [a])) == multiset(OnAlbums(songs, albums)) + multiset(WithKey(songs, AlbumOf, a))
  {
    if songs != [] {
      OnAlbumsExtend(songs[1..], albums, a);
    }
  }

  lemma {:induction false} OnAlbumsAll(songs: seq<Song>, albums: seq<string>)
    requires forall x :: x in songs ==> AlbumOf(x) in albums
    ensures OnAlbums(songs, albums) == songs
  {
    if songs != [] {
      assert forall x :: x in songs[1..] ==> x in songs;
      OnAlbumsAll(songs[1..], albums);
      assert songs == [songs[0]] + songs[1..];
    }
  }

  /** Over distinct albums, the groups hold exactly the songs on those albums. */
  lemma {:induction false} GroupedOnAlbums(albums: seq<string>, groups: map<string, seq<Song>>, songs: seq<Song>)
    requires Distinct(albums)
    requires forall a :: a in albums ==> a in groups && groups[a] == WithKey(songs, AlbumOf, a)
    ensures multiset(Grouped(albums, groups)) == multiset(OnAlbums(songs, albums))
  {
    if albums == [] {
      OnAlbumsNone(songs, albums);
    } else {
      var prefix := albums[..|albums| - 1];
      var last := albums[|albums| - 1];
      var group := WithKey(songs, AlbumOf, last);
      assert forall a :: a in prefix ==> a in albums;
      DistinctInit(albums);
      GroupedOnAlbums(prefix, groups, songs);
      OnAlbumsExtend(songs, prefix, last);
      assert prefix + [last] == albums;
      assert Grouped(albums, groups) == Grouped(prefix, groups) + group;
      assert multiset(Grouped(albums, groups)) == multiset(Grouped(prefix, groups)) + multiset(group);
    }
  }

  lemma {:induction false} OnAlbumsNone(songs: seq<Song>, albums: seq<string>)
    requires albums == []
    ensures OnAlbums(songs, albums) == []
  {
    if songs != [] {
      OnAlbumsNone(songs[1..], albums);
    }
  }

  lemma SortedAlbumsCover(songs: seq<Song>)
    ensures Distinct(SortedAlbums(songs))
    ensures forall a :: a in SortedAlbums(songs) ==> a in GroupMap(songs)
    ensures OnAlbums(songs, SortedAlbums(songs)) == songs
  {
    SortedAlbumsSpec(songs);
    AlbumsSpec(songs);
    GroupMapSpec(songs);
    OnAlbumsAll(songs, SortedAlbums(songs));
  }

  /** The album sections of a listing, for either builder. */
  lemma GroupedListing(style: Style, songs: seq<Song>)
    ensures Headers(Listing(style, songs)) == Tally(SortedAlbums(songs), songs)
    ensures multiset(Listed(Listing(style, songs))) == multiset(songs)
    ensures SizeSum(Headers(Listing(style, songs))) == |songs|
  {
    var albums, groups := SortedAlbums(songs), GroupMap(songs);
    SortedAlbumsCover(songs);
    GroupMapSpec(songs);
    SectionsHeaders(style, albums, groups, songs);
    SectionsListed(style, albums, groups);
    TallySum(albums, groups, songs);
    GroupedOnAlbums(albums, groups, songs);
    var l := Grouped(albums, groups);
    assert |l| == |multiset(l)| == |multiset(songs)| == |songs|;
  }

  /** Lines without album headers and without song entries. */
  lemma {:induction false} NoEntries(lines: seq<Line>)
    requires forall i :: 0 <= i < |lines| ==> !lines[i].AlbumHeader? && !lines[i].SongEntry?
    ensures Headers(lines) == [] && Listed(lines) == []
  {
    if lines != [] {
      var prefix := lines[..|lines| - 1];
      assert forall i :: 0 <= i < |prefix| ==> prefix[i] == lines[i];
      NoEntries(prefix);
    }
  }

  /** The preview lists the albums of the new songs in ascending order, each with the
      number of new songs on it; it lists every new song once; and its group sizes add up
      to the number of new songs. Nothing is listed when there is nothing new. */
  lemma PreviewGroups(analysis: Analysis)
    ensures analysis.newCount > 0 ==> Headers(PreviewLines(analysis)) == Tally(SortedAlbums(analysis.newSongs), analysis.newSongs)
    ensures analysis.newCount > 0 ==> multiset(Listed(PreviewLines(analysis))) == multiset(analysis.newSongs)
    ensures analysis.newCount > 0 ==> SizeSum(Headers(PreviewLines(analysis))) == |analysis.newSongs|
    ensures analysis.newCount == 0 ==> Headers(PreviewLines(analysis)) == [] && Listed(PreviewLines(analysis)) == []
  {
    if analysis.newCount > 0 {
      PreviewFrame(analysis);
      GroupedListing(PreviewStyle, analysis.newSongs);
    } else {
      PreviewEmpty(analysis);
    }
  }

  lemma PreviewFrame(analysis: Analysis)
    requires analysis.newCount > 0
    ensures Headers(PreviewLines(analysis)) == Headers(Listing(PreviewStyle, analysis.newSongs))
    ensures Listed(PreviewLines(analysis)) == Listed(Listing(PreviewStyle, analysis.newSongs))
  {
    PreviewSplit(analysis);
    PreviewAround(analysis, Listing(PreviewStyle, analysis.newSongs));
  }

  lemma PreviewSplit(analysis: Analysis)
    requires analysis.newCount > 0
    ensures PreviewLines(analysis) == PreviewStats(analysis) + AddListSection(Listing(PreviewStyle, analysis.newSongs))
  {
  }

  lemma PreviewAround(analysis: Analysis, listing: seq<Line>)
    ensures Headers(PreviewStats(analysis) + AddListSection(listing)) == Headers(listing)
    ensures Listed(PreviewStats(analysis) + AddListSection(listing)) == Listed(listing)
  {
    AddListFrame(listing);
    PlainPrefix(PreviewStats(analysis), AddListSection(listing));
  }

  lemma PreviewEmpty(analysis: Analysis)
    requires analysis.newCount == 0
    ensures Headers(PreviewLines(analysis)) == [] && Listed(PreviewLines(analysis)) == []
  {
    PlainPrefix(PreviewStats(analysis), []);
  }

  /** Lines that are neither headers nor entries, put before other lines, change neither
      their headers nor their entries. */
  lemma PlainPrefix(before: seq<Line>, rest: seq<Line>)
    requires forall i :: 0 <= i < |before| ==> !before[i].AlbumHeader? && !before[i].SongEntry?
    ensures Headers(before + rest) == Headers(rest) && Listed(before + rest) == Listed(rest)
  {
    NoEntries(before);
    HeadersAppend(before, rest);
  }

  lemma PlainSuffix(rest: seq<Line>, after: seq<Line>)
    requires forall i :: 0 <= i < |after| ==> !after[i].AlbumHeader? && !after[i].SongEntry?
    ensures Headers(rest + after) == Headers(rest) && Listed(rest + after) == Listed(rest)
  {
    NoEntries(after);
    HeadersAppend(rest, after);
  }

  lemma AddListFrame(listing: seq<Line>)
    ensures Headers(AddListSection(listing)) == Headers(listing)
    ensures Listed(AddListSection(listing)) == Listed(listing)
  {
    PlainPrefix([Decor, Heading(AddList), Decor], listing);
    PlainSuffix([Decor, Heading(AddList), Decor] + listing, [Blank]);
  }

  lemma DetailsFrame(albumCount: int, listing: seq<Line>)
    ensures Headers(DetailsSection(albumCount, listing)) == Headers(listing)
    ensures Listed(DetailsSection(albumCount, listing)) == Listed(listing)
  {
    PlainPrefix([Decor, Heading(NewSongDetails), Decor, Blank, Count(AlbumCount, albumCount), Blank], listing);
  }

  /** The same statements about the merge report. */
  lemma ReportGroups(analysis: Analysis, config: ReportConfig, timestamp: string)
    ensures analysis.newCount > 0 ==> Headers(ReportLines(analysis, config, timestamp)) == Tally(SortedAlbums(analysis.newSongs), analysis.newSongs)
    ensures analysis.newCount > 0 ==> multiset(Listed(ReportLines(analysis, config, timestamp))) == multiset(analysis.newSongs)
    ensures analysis.newCount > 0 ==> SizeSum(Headers(ReportLines(analysis, config, timestamp))) == |analysis.newSongs|
    ensures analysis.newCount == 0 ==> Headers(ReportLines(analysis, config, timestamp)) == [] && Listed(ReportLines(analysis, config, timestamp)) == []
  {
    if analysis.newCount > 0 {
      ReportFrame(analysis, config, timestamp);
      GroupedListing(ReportStyle, analysis.newSongs);
    } else {
      ReportEmpty(analysis, config, timestamp);
    }
  }

  lemma ReportFrame(analysis: Analysis, config: ReportConfig, timestamp: string)
    requires analysis.newCount > 0
    ensures Headers(ReportLines(analysis, config, timestamp)) == Headers(Listing(ReportStyle, analysis.newSongs))
    ensures Listed(ReportLines(analysis, config, timestamp)) == Listed(Listing(ReportStyle, analysis.newSongs))
  {
    ReportSplit(analysis, config, timestamp);
    ReportAround(analysis, config, timestamp, |Albums(analysis.newSongs)|, Listing(ReportStyle, analysis.newSongs));
  }

  lemma ReportSplit(analysis: Analysis, config: ReportConfig, timestamp: string)
    requires analysis.newCount > 0
    ensures ReportLines(analysis, config, timestamp)
      == ReportHead(analysis, config, timestamp)
         + DetailsSection(|Albums(analysis.newSongs)|, Listing(ReportStyle, analysis.newSongs))
         + ReportTail
  {
  }

  lemma ReportAround(analysis: Analysis, config: ReportConfig, timestamp: string, albumCount: int, listing: seq<Line>)
    ensures Headers(ReportHead(analysis, config, timestamp) + DetailsSection(albumCount, listing) + ReportTail) == Headers(listing)
    ensures Listed(ReportHead(analysis, config, timestamp) + DetailsSection(albumCount, listing) + ReportTail) == Listed(listing)
  {
    var top := ReportHead(analysis, config, timestamp);
    DetailsFrame(albumCount, listing);
    PlainPrefix(top, DetailsSection(albumCount, listing));
    PlainSuffix(top + DetailsSection(albumCount, listing), ReportTail);
  }

  lemma ReportEmpty(analysis: Analysis, config: ReportConfig, timestamp: string)
    requires analysis.newCount == 0
    ensures Headers(ReportLines(analysis, config, timestamp)) == [] && Listed(ReportLines(analysis, config, timestamp)) == []
  {
    var top := ReportHead(analysis, config, timestamp);
    PlainPrefix(top, []);
    PlainSuffix(top + [], ReportTail);
  }

  /** The album count the report prints is the number of distinct albums among the new songs,
      which is the number of album headers it lists. */
  lemma ReportAlbumCount(songs: seq<Song>)
    ensures |Albums(songs)| == |Tally(SortedAlbums(songs), songs)|
    ensures forall a :: a in Albums(songs) <==> exists x :: x in songs && AlbumOf(x) == a
  {
    AlbumsSpec(songs);
    TallyLength(SortedAlbums(songs), songs);
  }

  lemma {:induction false} TallyLength(albums: seq<string>, songs: seq<Song>)
    ensures |Tally(albums, songs)| == |albums|
  {
    if albums != [] {
      TallyLength(albums[..|albums| - 1], songs);
    }
  }

  /** A new song without an album is listed under the sentinel album. */
  lemma MissingAlbumUnderSentinel(songs: seq<Song>, x: Song)
    requires x in songs && !Truthy(x.album)
    ensures UnknownAlbum in SortedAlbums(songs)
    ensures UnknownAlbum in GroupMap(songs) && x in GroupMap(songs)[UnknownAlbum]
  {
    assert AlbumOf(x) == UnknownAlbum;
    SortedAlbumsSpec(songs);
    GroupMapSpec(songs);
    AlbumsSpec(songs);
    assert UnknownAlbum in Albums(songs);
  }

  /** The total the preview and the report print for an analysis is the length of the
      list the merge then produces. */
  lemma ReportedTotalIsMergedLength(main: seq<Song>, secondary: seq<Song>, uniqueBy: string, strategy: MergeStrategy,
                                    config: ReportConfig, timestamp: string)
    ensures PreviewLines(Analyze(main, secondary, uniqueBy))[9]
      == Count(MergedTotal, |MergeData(main, Analyze(main, secondary, uniqueBy).newSongs, strategy)|)
    ensures ReportLines(Analyze(main, secondary, uniqueBy), config, timestamp)[18]
      == Count(MergedTotal, |MergeData(main, Analyze(main, secondary, uniqueBy).newSongs, strategy)|)
  {
    var a := Analyze(main, secondary, uniqueBy);
    var total := |MergeData(main, a.newSongs, strategy)|;
    assert total == a.mainCount + a.newCount;
    PreviewTotal(a);
    ReportTotal(a, config, timestamp);
  }

  lemma PreviewTotal(a: Analysis)
    ensures PreviewLines(a)[9] == Count(MergedTotal, a.mainCount + a.newCount)
  {
    var stats := PreviewStats(a);
    assert |stats| == 11 && stats[9] == Count(MergedTotal, a.mainCount + a.newCount);
  }

  lemma ReportTotal(a: Analysis, config: ReportConfig, timestamp: string)
    ensures ReportLines(a, config, timestamp)[18] == Count(MergedTotal, a.mainCount + a.newCount)
  {
    var head := ReportHead(a, config, timestamp);
    assert |head| == 26 && head[18] == Count(MergedTotal, a.mainCount + a.newCount);
    var songs := if a.newCount > 0 then ReportSongs(a.newSongs) else [];
    assert ReportLines(a, config, timestamp) == head + songs + ReportTail;
  }
}
