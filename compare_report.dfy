/** The comparison report of scripts/lib/compare.js (`formatReport`). The report is modelled as
    the sequence of pushed lines, one value per `lines.push`, recording what each line says
    rather than its glyphs; joining the lines into one text is left out. */
module CompareReport {
  import opened Orders
  import opened Seqs
  import opened Js
  import opened Tracks
  import opened Compare

  /** The headings of the report. */
  datatype Topic = Title | Overview | CountDifferences | AlbumDetails | SongDetails | Conclusion

  /** The totals of one summary. */
  datatype Stat = AlbumTotal | SongTotal

  /** The counts of the closing summary. */
  datatype Tallied = OnlyFirstAlbums | OnlySecondAlbums | SharedAlbums | OnlyFirstSongs | OnlySecondSongs

  /** One pushed line. `Decor` is a border or a rule, `Blank` the empty line. A count read from
      `analysis.albums[album]` is `None` when the album has no entry there (it then renders as
      "undefined"). A difference is carried as a number and rendered by `Signed`; a difference
      of counts is `None` when it is NaN, and rendered by `DiffText`. */
  datatype Line =
    | Decor
    | Blank
    | Heading(topic: Topic)
    | FileLabel(file: int, name: string)
    | Total(stat: Stat, n: int)
    | Delta(stat: Stat, diff: int)
    | AlbumsHeading(fileName: string, count: int)
    | NoAlbums(fileName: string)
    | AlbumLine(album: string, songCount: Option<int>)
    | SongRow(index: int, info: SongInfo)
    | CommonHeading(count: int)
    | CommonAlbum(album: string)
    | CountPair(file1: string, count1: Option<int>, file2: string, count2: Option<int>, difference: Option<int>)
    | Warning
    | SongsHeading(fileName: string, count: int)
    | NoSongs(fileName: string)
    | RunHeader(album: string)
    | SongBullet(entry: Entry)
    | Tally(what: Tallied, n: int)

  // ---------------------------------------------------------------------------
  // Signed numbers

  /** `${d > 0 ? '+' : ''}${d}`: a positive difference gets a plus sign. */
  function Signed(n: int): string {
    (if n > 0 then "+" else "") + Decimal(n)
  }

  /** The sign of the text tells the sign of the difference, "0" meaning no difference. */
  lemma SignedSign(n: int)
    ensures |Signed(n)| > 0
    ensures Signed(n)[0] == '+' <==> n > 0
    ensures Signed(n)[0] == '-' <==> n < 0
    ensures Signed(n) == "0" <==> n == 0
  {
    if n > 0 {
      assert Decimal(n) == Digits(n);
      assert Signed(n) == "+" + Digits(n);
    } else if n == 0 {
      assert Decimal(0) == Digits(0) == [DigitChar(0)] == "0";
    } else {
      assert Signed(n) == Decimal(n);
    }
  }

  /** Different differences are printed differently. */
  lemma SignedInjective(m: int, n: int)
    requires Signed(m) == Signed(n)
    ensures m == n
  {
    SignedSign(m);
    SignedSign(n);
    if m > 0 {
      assert Signed(m) == "+" + Decimal(m) && Signed(n) == "+" + Decimal(n);
      assert ("+" + Decimal(m))[1..] == Decimal(m) && ("+" + Decimal(n))[1..] == Decimal(n);
    } else {
      assert Signed(m) == Decimal(m) && Signed(n) == Decimal(n);
    }
    DecimalInjective(m, n);
  }

  // ---------------------------------------------------------------------------
  // The report, as functions

  /** `analysis.albums[album]`. */
  function CountOf(counts: map<string, int>, album: string): (r: Option<int>)
    ensures r.Some? <==> album in counts
    ensures r.Some? ==> r.value == counts[album]
  {
    if album in counts then Some(counts[album]) else None
  }

  /** The numbered songs of one album, numbered from 1. */
  function AlbumRows(songs: seq<SongInfo>): (r: seq<Line>)
    ensures |r| == |songs|
    ensures forall i :: 0 <= i < |songs| ==> r[i] == SongRow(i + 1, songs[i])
  {
    if songs == [] then [] else AlbumRows(songs[..|songs| - 1]) + [SongRow(|songs|, songs[|songs| - 1])]
  }

  /** Every listed album has a bucket in the summary; the report throws otherwise. */
  predicate Listable(albums: seq<string>, a: Summary) {
    forall x | x in albums :: x in a.songsByAlbum.entries
  }

  /** One album of a file: its name and count, its numbered songs, a blank line. */
  function AlbumBlock(album: string, a: Summary): seq<Line>
    requires album in a.songsByAlbum.entries
  {
    [AlbumLine(album, CountOf(a.albums.entries, album))] + AlbumRows(a.songsByAlbum.entries[album]) + [Blank]
  }

  function AlbumBlocks(albums: seq<string>, a: Summary): seq<Line>
    requires Listable(albums, a)
  {
    if albums == [] then []
    else
      var prefix := albums[..|albums| - 1];
      assert forall x | x in prefix :: x in albums;
      AlbumBlocks(prefix, a) + AlbumBlock(albums[|albums| - 1], a)
  }

  /** The albums of one file only: a heading with their number and their blocks, or "none". */
  function OnlyAlbumsSection(fileName: string, albums: seq<string>, a: Summary): seq<Line>
    requires Listable(albums, a)
  {
    if |albums| > 0 then [AlbumsHeading(fileName, |albums|), Decor] + AlbumBlocks(albums, a)
    else [NoAlbums(fileName), Blank]
  }

  /** `count2 - count1`, which is NaN (`None`) when either count is missing. */
  function Difference(count1: Option<int>, count2: Option<int>): Option<int> {
    if count1.Some? && count2.Some? then Some(count2.value - count1.value) else None
  }

  /** `diff > 0 ? `+${diff}` : diff.toString()` for a difference of counts. */
  function DiffText(diff: Option<int>): string {
    if diff.Some? then Signed(diff.value) else "NaN"
  }

  /** `diff !== 0`, which NaN also satisfies. */
  predicate Differs(count1: Option<int>, count2: Option<int>) {
    Difference(count1, count2) != Some(0)
  }

  /** One common album: its name, both counts and their difference, a warning when they
      differ, a blank line. */
  function CommonBlock(album: string, a1: Summary, a2: Summary, file1Name: string, file2Name: string): seq<Line> {
    CountsBlock(album, file1Name, CountOf(a1.albums.entries, album), file2Name, CountOf(a2.albums.entries, album))
  }

  /** The block of a common album whose two counts are `count1` and `count2`. */
  function CountsBlock(album: string, file1Name: string, count1: Option<int>, file2Name: string, count2: Option<int>): seq<Line> {
    [CommonAlbum(album), CountPair(file1Name, count1, file2Name, count2, Difference(count1, count2))]
      + (if Differs(count1, count2) then [Warning] else [])
      + [Blank]
  }

  function CommonBlocks(albums: seq<string>, a1: Summary, a2: Summary, file1Name: string, file2Name: string): seq<Line> {
    if albums == [] then []
    else CommonBlocks(albums[..|albums| - 1], a1, a2, file1Name, file2Name) + CommonBlock(albums[|albums| - 1], a1, a2, file1Name, file2Name)
  }

  function CommonSection(albums: seq<string>, a1: Summary, a2: Summary, file1Name: string, file2Name: string): seq<Line> {
    [Decor, CommonHeading(|albums|), Decor, Blank] + CommonBlocks(albums, a1, a2, file1Name, file2Name)
  }

  /** `currentAlbum` after the songs `done`: the album of the last of them, or "" at first. */
  function Current(done: seq<Entry>): string {
    if done == [] then "" else done[|done| - 1].album
  }

  /** The songs of one file only, in runs: a header whenever the album changes, preceded by a
      blank line unless it is the first (or follows the album ""), then one bullet per song. */
  function RunLines(songs: seq<Entry>): seq<Line> {
    if songs == [] then []
    else RunLines(songs[..|songs| - 1]) + RunPiece(Current(songs[..|songs| - 1]), songs[|songs| - 1])
  }

  /** The lines of one song, `current` being the album of the song before it. */
  function RunPiece(current: string, song: Entry): seq<Line> {
    (if song.album != current then (if current != "" then [Blank] else []) + [RunHeader(song.album)] else [])
      + [SongBullet(song)]
  }

  /** The songs of one file only: a heading with their number and their runs, or "none". */
  function OnlySongsSection(fileName: string, songs: seq<Entry>): seq<Line> {
    if |songs| > 0 then [SongsHeading(fileName, |songs|), Decor] + RunLines(songs) + [Blank]
    else [NoSongs(fileName), Blank]
  }

  /** The titles, the totals of both files and their differences. */
  function ReportHead(a1: Summary, a2: Summary, file1Name: string, file2Name: string): seq<Line> {
    [Decor, Heading(Title), Decor, Blank,
     Heading(Overview), Decor,
     FileLabel(1, file1Name), Total(AlbumTotal, a1.totalAlbums), Total(SongTotal, a1.totalSongs), Blank,
     FileLabel(2, file2Name), Total(AlbumTotal, a2.totalAlbums), Total(SongTotal, a2.totalSongs), Blank,
     Heading(CountDifferences),
     Delta(AlbumTotal, a2.totalAlbums - a1.totalAlbums),
     Delta(SongTotal, a2.totalSongs - a1.totalSongs),
     Blank,
     Decor, Heading(AlbumDetails), Decor, Blank]
  }

  /** The closing summary: how many albums and songs each list holds. */
  function ReportTail(d: Differences): seq<Line> {
    [Decor, Heading(Conclusion), Decor,
     Tally(OnlyFirstAlbums, |d.albums.onlyInFile1|),
     Tally(OnlySecondAlbums, |d.albums.onlyInFile2|),
     Tally(SharedAlbums, |d.albums.commonAlbums|),
     Tally(OnlyFirstSongs, |d.songs.onlyInFile1|),
     Tally(OnlySecondSongs, |d.songs.onlyInFile2|),
     Blank]
  }

  /** What `formatReport` needs of its inputs: each album listed as only in one file has a
      bucket in that file's summary (`songs.forEach` throws on a missing one). */
  predicate ReportReady(a1: Summary, a2: Summary, d: Differences) {
    Listable(d.albums.onlyInFile1, a1) && Listable(d.albums.onlyInFile2, a2)
  }

  /** The lines `formatReport` pushes: the titles, the totals of both files and their
      differences, the albums of one file only, the common albums, the songs of one file
      only, and the closing summary of how many albums and songs each list holds. */
  function ReportLines(a1: Summary, a2: Summary, d: Differences, file1Name: string, file2Name: string): seq<Line>
    requires ReportReady(a1, a2, d)
  {
    ReportHead(a1, a2, file1Name, file2Name)
      + OnlyAlbumsSection(file1Name, d.albums.onlyInFile1, a1)
      + OnlyAlbumsSection(file2Name, d.albums.onlyInFile2, a2)
      + CommonSection(d.albums.commonAlbums, a1, a2, file1Name, file2Name)
      + [Decor, Heading(SongDetails), Decor, Blank]
      + OnlySongsSection(file1Name, d.songs.onlyInFile1)
      + OnlySongsSection(file2Name, d.songs.onlyInFile2)
      + ReportTail(d)
  }

  // ---------------------------------------------------------------------------
  // The report, as the method that pushes the lines

  method PushAlbumRows(lines: seq<Line>, songs: seq<SongInfo>) returns (out: seq<Line>)
    ensures out == lines + AlbumRows(songs)
  {
    out := lines;
    var i := 0;
    while i < |songs|
      invariant 0 <= i <= |songs|
      invariant out == lines + AlbumRows(songs[..i])
    {
      assert songs[..i + 1][..i] == songs[..i];
      AppendAssoc(lines, AlbumRows(songs[..i]), [SongRow(i + 1, songs[i])]);
      out := out + [SongRow(i + 1, songs[i])];
      i := i + 1;
    }
    assert songs[..|songs|] == songs;
  }

  lemma AlbumBlocksStep(albums: seq<string>, a: Summary, k: nat)
    requires Listable(albums, a) && k < |albums|
    ensures Listable(albums[..k], a) && Listable(albums[..k + 1], a)
    ensures AlbumBlocks(albums[..k + 1], a) == AlbumBlocks(albums[..k], a) + AlbumBlock(albums[k], a)
  {
    assert forall x | x in albums[..k + 1] :: x in albums;
    assert albums[..k + 1][..k] == albums[..k];
  }

  method PushAlbumBlock(lines: seq<Line>, album: string, a: Summary) returns (out: seq<Line>)
    requires album in a.songsByAlbum.entries
    ensures out == lines + AlbumBlock(album, a)
  {
    out := lines + [AlbumLine(album, CountOf(a.albums.entries, album))];
    out := PushAlbumRows(out, a.songsByAlbum.entries[album]);
    out := out + [Blank];
  }

  method PushAlbumBlocks(lines: seq<Line>, albums: seq<string>, a: Summary) returns (out: seq<Line>)
    requires Listable(albums, a)
    ensures out == lines + AlbumBlocks(albums, a)
  {
    out := lines;
    var k := 0;
    while k < |albums|
      invariant 0 <= k <= |albums|
      invariant Listable(albums[..k], a)
      invariant out == lines + AlbumBlocks(albums[..k], a)
    {
      AlbumBlocksStep(albums, a, k);
      AppendAssoc(lines, AlbumBlocks(albums[..k], a), AlbumBlock(albums[k], a));
      out := PushAlbumBlock(out, albums[k], a);
      k := k + 1;
    }
    assert albums[..|albums|] == albums;
  }

  method PushOnlyAlbums(lines: seq<Line>, fileName: string, albums: seq<string>, a: Summary) returns (out: seq<Line>)
    requires Listable(albums, a)
    ensures out == lines + OnlyAlbumsSection(fileName, albums, a)
  {
    if |albums| > 0 {
      out := lines + [AlbumsHeading(fileName, |albums|), Decor];
      out := PushAlbumBlocks(out, albums, a);
    } else {
      out := lines + [NoAlbums(fileName), Blank];
    }
  }

  method PushCommonBlock(lines: seq<Line>, album: string, a1: Summary, a2: Summary, file1Name: string, file2Name: string)
    returns (out: seq<Line>)
    ensures out == lines + CommonBlock(album, a1, a2, file1Name, file2Name)
  {
    var count1, count2 := CountOf(a1.albums.entries, album), CountOf(a2.albums.entries, album);
    out := lines + [CommonAlbum(album), CountPair(file1Name, count1, file2Name, count2, Difference(count1, count2))];
    if Differs(count1, count2) {
      out := out + [Warning];
    }
    out := out + [Blank];
  }

  method PushCommon(lines: seq<Line>, albums: seq<string>, a1: Summary, a2: Summary, file1Name: string, file2Name: string)
    returns (out: seq<Line>)
    ensures out == lines + CommonSection(albums, a1, a2, file1Name, file2Name)
  {
    out := lines + [Decor, CommonHeading(|albums|), Decor, Blank];
    ghost var start := out;
    var k := 0;
    while k < |albums|
      invariant 0 <= k <= |albums|
      invariant out == start + CommonBlocks(albums[..k], a1, a2, file1Name, file2Name)
    {
      assert albums[..k + 1][..k] == albums[..k];
      AppendAssoc(start, CommonBlocks(albums[..k], a1, a2, file1Name, file2Name), CommonBlock(albums[k], a1, a2, file1Name, file2Name));
      out := PushCommonBlock(out, albums[k], a1, a2, file1Name, file2Name);
      k := k + 1;
    }
    assert albums[..|albums|] == albums;
  }

  /** One song of the runs: a new run's header when its album is not `currentAlbum`, then
      its bullet. */
  method PushSong(lines: seq<Line>, currentAlbum: string, song: Entry) returns (out: seq<Line>, current: string)
    ensures out == lines + RunPiece(currentAlbum, song)
    ensures current == song.album
  {
    out := lines;
    current := currentAlbum;
    if song.album != current {
      if current != "" {
        out := out + [Blank];
      }
      current := song.album;
      out := out + [RunHeader(song.album)];
    }
    out := out + [SongBullet(song)];
  }

  /** The runs of songs, tracking `currentAlbum` as the source does. */
  method PushRuns(lines: seq<Line>, songs: seq<Entry>) returns (out: seq<Line>)
    ensures out == lines + RunLines(songs)
  {
    out := lines;
    var currentAlbum := "";
    var i := 0;
    while i < |songs|
      invariant 0 <= i <= |songs|
      invariant currentAlbum == Current(songs[..i])
      invariant out == lines + RunLines(songs[..i])
    {
      assert songs[..i + 1][..i] == songs[..i];
      AppendAssoc(lines, RunLines(songs[..i]), RunPiece(currentAlbum, songs[i]));
      out, currentAlbum := PushSong(out, currentAlbum, songs[i]);
      i := i + 1;
    }
    assert songs[..|songs|] == songs;
  }

  method PushOnlySongs(lines: seq<Line>, fileName: string, songs: seq<Entry>) returns (out: seq<Line>)
    ensures out == lines + OnlySongsSection(fileName, songs)
  {
    if |songs| > 0 {
      out := lines + [SongsHeading(fileName, |songs|), Decor];
      out := PushRuns(out, songs);
      out := out + [Blank];
    } else {
      out := lines + [NoSongs(fileName), Blank];
    }
  }

  method PushAlbumDetails(lines: seq<Line>, a1: Summary, a2: Summary, d: Differences, file1Name: string, file2Name: string)
    returns (out: seq<Line>)
    requires ReportReady(a1, a2, d)
    ensures out == lines
      + OnlyAlbumsSection(file1Name, d.albums.onlyInFile1, a1)
      + OnlyAlbumsSection(file2Name, d.albums.onlyInFile2, a2)
      + CommonSection(d.albums.commonAlbums, a1, a2, file1Name, file2Name)
  {
    out := PushOnlyAlbums(lines, file1Name, d.albums.onlyInFile1, a1);
    out := PushOnlyAlbums(out, file2Name, d.albums.onlyInFile2, a2);
    out := PushCommon(out, d.albums.commonAlbums, a1, a2, file1Name, file2Name);
  }

  method PushSongDetails(lines: seq<Line>, d: Differences, file1Name: string, file2Name: string) returns (out: seq<Line>)
    ensures out == lines
      + [Decor, Heading(SongDetails), Decor, Blank]
      + OnlySongsSection(file1Name, d.songs.onlyInFile1)
      + OnlySongsSection(file2Name, d.songs.onlyInFile2)
  {
    out := lines + [Decor, Heading(SongDetails), Decor, Blank];
    out := PushOnlySongs(out, file1Name, d.songs.onlyInFile1);
    out := PushOnlySongs(out, file2Name, d.songs.onlyInFile2);
  }

  /** `formatReport`: the lines of the comparison report of two summaries and their
      differences. */
  method FormatReport(a1: Summary, a2: Summary, d: Differences, file1Name: string, file2Name: string)
    returns (lines: seq<Line>)
    requires ReportReady(a1, a2, d)
    ensures lines == ReportLines(a1, a2, d, file1Name, file2Name)
  {
    lines := ReportHead(a1, a2, file1Name, file2Name);
    lines := PushAlbumDetails(lines, a1, a2, d, file1Name, file2Name);
    lines := PushSongDetails(lines, d, file1Name, file2Name);
    lines := lines + ReportTail(d);
  }

  // ---------------------------------------------------------------------------
  // What the report says

  /** The songs that the bullet lines of `lines` show, in order. */
  function Bullets(lines: seq<Line>): seq<Entry> {
    if lines == [] then []
    else
      var last := lines[|lines| - 1];
      Bullets(lines[..|lines| - 1]) + (if last.SongBullet? then [last.entry] else [])
  }

  /** The kinds of line that name an album. */
  datatype Naming = ByRunHeader | ByAlbumLine | ByCommonAlbum

  predicate Names(l: Line, naming: Naming) {
    match naming
    case ByRunHeader => l.RunHeader?
    case ByAlbumLine => l.AlbumLine?
    case ByCommonAlbum => l.CommonAlbum?
  }

  /** The albums that the lines of one kind name, in order. */
  function Named(lines: seq<Line>, naming: Naming): seq<string> {
    if lines == [] then []
    else
      var last := lines[|lines| - 1];
      Named(lines[..|lines| - 1], naming) + (if Names(last, naming) then [last.album] else [])
  }

  lemma {:induction false} BulletsAppend(a: seq<Line>, b: seq<Line>)
    ensures Bullets(a + b) == Bullets(a) + Bullets(b)
    decreases |b|
  {
    if b == [] {
      assert a + b == a;
    } else {
      var prefix := b[..|b| - 1];
      assert (a + b)[..|a + b| - 1] == a + prefix && (a + b)[|a + b| - 1] == b[|b| - 1];
      BulletsAppend(a, prefix);
    }
  }

  lemma {:induction false} NamedAppend(a: seq<Line>, b: seq<Line>, naming: Naming)
    ensures Named(a + b, naming) == Named(a, naming) + Named(b, naming)
    decreases |b|
  {
    if b == [] {
      assert a + b == a;
    } else {
      var prefix := b[..|b| - 1];
      assert (a + b)[..|a + b| - 1] == a + prefix && (a + b)[|a + b| - 1] == b[|b| - 1];
      NamedAppend(a, prefix, naming);
    }
  }

  lemma {:induction false} BulletsNone(lines: seq<Line>)
    requires forall i :: 0 <= i < |lines| ==> !lines[i].SongBullet?
    ensures Bullets(lines) == []
    decreases |lines|
  {
    if lines != [] {
      BulletsNone(lines[..|lines| - 1]);
    }
  }

  lemma {:induction false} NamedNone(lines: seq<Line>, naming: Naming)
    requires forall i :: 0 <= i < |lines| ==> !Names(lines[i], naming)
    ensures Named(lines, naming) == []
    decreases |lines|
  {
    if lines != [] {
      NamedNone(lines[..|lines| - 1], naming);
    }
  }

  /** Lines without bullets around `body` add none. */
  lemma BulletsFramed(before: seq<Line>, body: seq<Line>, after: seq<Line>)
    requires forall i :: 0 <= i < |before| ==> !before[i].SongBullet?
    requires forall i :: 0 <= i < |after| ==> !after[i].SongBullet?
    ensures Bullets(before + body + after) == Bullets(body)
  {
    BulletsAppend(before + body, after);
    BulletsAppend(before, body);
    BulletsNone(before);
    BulletsNone(after);
  }

  /** A naming line, then lines that name nothing, then a line that names nothing, name one
      album. */
  lemma NamedFramed(first: Line, body: seq<Line>, last: Line, naming: Naming)
    requires Names(first, naming) && !Names(last, naming)
    requires forall i :: 0 <= i < |body| ==> !Names(body[i], naming)
    ensures Named([first] + body + [last], naming) == [first.album]
  {
    NamedAppend([first] + body, [last], naming);
    NamedAppend([first], body, naming);
    NamedNone(body, naming);
    NamedOne(first, naming);
    NamedOne(last, naming);
  }

  lemma BulletsOne(l: Line)
    ensures Bullets([l]) == if l.SongBullet? then [l.entry] else []
  {
    assert [l][..0] == [];
  }

  lemma NamedOne(l: Line, naming: Naming)
    ensures Named([l], naming) == if Names(l, naming) then [l.album] else []
  {
    assert [l][..0] == [];
  }

  /** One song's lines: one bullet, and a header exactly when its album differs from the
      previous song's. */
  lemma RunPieceLines(current: string, song: Entry)
    ensures Bullets(RunPiece(current, song)) == [song]
    ensures Named(RunPiece(current, song), ByRunHeader) == if song.album != current then [song.album] else []
  {
    var header: seq<Line> := if song.album != current then (if current != "" then [Blank] else []) + [RunHeader(song.album)] else [];
    assert RunPiece(current, song) == header + [SongBullet(song)];
    BulletsAppend(header, [SongBullet(song)]);
    NamedAppend(header, [SongBullet(song)], ByRunHeader);
    BulletsOne(SongBullet(song));
    NamedOne(SongBullet(song), ByRunHeader);
    BulletsNone(header);
    if song.album != current {
      var blank: seq<Line> := if current != "" then [Blank] else [];
      NamedAppend(blank, [RunHeader(song.album)], ByRunHeader);
      NamedNone(blank, ByRunHeader);
      NamedOne(RunHeader(song.album), ByRunHeader);
    } else {
      assert header == [];
    }
  }

  lemma RunLinesStep(songs: seq<Entry>)
    requires songs != []
    ensures var prefix, song := songs[..|songs| - 1], songs[|songs| - 1];
      && songs == prefix + [song]
      && Bullets(RunLines(songs)) == Bullets(RunLines(prefix)) + [song]
      && Named(RunLines(songs), ByRunHeader) == Named(RunLines(prefix), ByRunHeader)
           + (if song.album != Current(prefix) then [song.album] else [])
  {
    var prefix, song := songs[..|songs| - 1], songs[|songs| - 1];
    AfterPiece(RunLines(prefix), Current(prefix), song);
  }

  lemma AfterPiece(before: seq<Line>, current: string, song: Entry)
    ensures Bullets(before + RunPiece(current, song)) == Bullets(before) + [song]
    ensures Named(before + RunPiece(current, song), ByRunHeader) == Named(before, ByRunHeader)
      + (if song.album != current then [song.album] else [])
  {
    BulletsAppend(before, RunPiece(current, song));
    NamedAppend(before, RunPiece(current, song), ByRunHeader);
    RunPieceLines(current, song);
  }

  /** Every song of the list gets one bullet, in list order. */
  lemma {:induction false} RunBullets(songs: seq<Entry>)
    ensures Bullets(RunLines(songs)) == songs
    decreases |songs|
  {
    if songs != [] {
      RunBullets(songs[..|songs| - 1]);
      RunLinesStep(songs);
    }
  }

  /** `names` holds exactly the albums of `songs`. */
  ghost predicate AlbumsOf(names: seq<string>, songs: seq<Entry>) {
    forall a :: a in names <==> exists e :: e in songs && e.album == a
  }

  /** Exactly the albums of the listed songs get a run header, the last one being that of the
      last song. No album of a listed song is empty (`AlbumOf` never is). */
  lemma {:induction false} RunHeadersCover(songs: seq<Entry>)
    requires forall e :: e in songs ==> e.album != ""
    ensures AlbumsOf(Named(RunLines(songs), ByRunHeader), songs)
    ensures songs != [] ==> var h := Named(RunLines(songs), ByRunHeader); |h| > 0 && h[|h| - 1] == Current(songs)
    decreases |songs|
  {
    if songs != [] {
      var prefix, song := songs[..|songs| - 1], songs[|songs| - 1];
      assert forall e :: e in prefix ==> e in songs;
      RunHeadersCover(prefix);
      RunLinesStep(songs);
      CoverStep(Named(RunLines(prefix), ByRunHeader), prefix, song);
    }
  }

  /** One step of `RunHeadersCover`, over the headers `before` of the earlier songs. */
  lemma CoverStep(before: seq<string>, prefix: seq<Entry>, song: Entry)
    requires song.album != "" && forall e :: e in prefix ==> e.album != ""
    requires AlbumsOf(before, prefix)
    requires prefix != [] ==> |before| > 0 && before[|before| - 1] == Current(prefix)
    ensures var h := before + (if song.album != Current(prefix) then [song.album] else []);
      && AlbumsOf(h, prefix + [song])
      && |h| > 0 && h[|h| - 1] == Current(prefix + [song])
  {
    var songs := prefix + [song];
    assert songs[..|songs| - 1] == prefix;
    assert forall e :: e in songs <==> e in prefix || e == song;
  }

  /** In songs sorted by album, a song whose album differs from the previous song's has an
      album no earlier song has. */
  lemma NewRunNewAlbum(songs: seq<Entry>, le: (string, string) -> bool)
    requires TotalOrder(le) && SortedBy(songs, AlbumOfEntry, le) && songs != []
    requires var prefix := songs[..|songs| - 1]; songs[|songs| - 1].album != Current(prefix)
    ensures forall x :: x in songs[..|songs| - 1] ==> x.album != songs[|songs| - 1].album
  {
    var n := |songs|;
    forall x | x in songs[..n - 1] ensures x.album != songs[n - 1].album {
      var j :| 0 <= j < n - 1 && songs[j] == x;
      assert le(AlbumOfEntry(songs[n - 2]), AlbumOfEntry(songs[n - 1]));
      if j < n - 2 {
        assert le(AlbumOfEntry(songs[j]), AlbumOfEntry(songs[n - 2]));
      }
    }
  }

  /** Songs sorted by album, as `compareDifferences` lists them, give each album one run. */
  lemma {:induction false} RunHeadersOnce(songs: seq<Entry>, le: (string, string) -> bool)
    requires forall e :: e in songs ==> e.album != ""
    requires TotalOrder(le) && SortedBy(songs, AlbumOfEntry, le)
    ensures Distinct(Named(RunLines(songs), ByRunHeader))
    decreases |songs|
  {
    if songs != [] {
      var prefix, song := songs[..|songs| - 1], songs[|songs| - 1];
      assert forall e :: e in prefix ==> e in songs;
      assert SortedBy(prefix, AlbumOfEntry, le);
      RunHeadersOnce(prefix, le);
      RunHeadersCover(prefix);
      RunLinesStep(songs);
      var h := Named(RunLines(prefix), ByRunHeader);
      if song.album != Current(prefix) {
        NewRunNewAlbum(songs, le);
        assert song.album !in h;
        DistinctSnoc(h, song.album);
      } else {
        assert h + [] == h;
      }
    }
  }

  /** A non-empty song section announces as many songs as it lists bullets, namely the songs
      of the list; an empty one lists none. */
  lemma OnlySongsSectionSpec(fileName: string, songs: seq<Entry>)
    ensures Bullets(OnlySongsSection(fileName, songs)) == songs
    ensures songs != [] ==> OnlySongsSection(fileName, songs)[0] == SongsHeading(fileName, |songs|)
    ensures songs == [] ==> OnlySongsSection(fileName, songs) == [NoSongs(fileName), Blank]
  {
    if songs != [] {
      RunBullets(songs);
      SongsSectionBullets(fileName, |songs|, RunLines(songs));
    } else {
      BulletsNone([NoSongs(fileName), Blank]);
    }
  }

  lemma SongsSectionBullets(fileName: string, count: int, body: seq<Line>)
    ensures Bullets([SongsHeading(fileName, count), Decor] + body + [Blank]) == Bullets(body)
  {
    BulletsFramed([SongsHeading(fileName, count), Decor], body, [Blank]);
  }

  /** The album lines of the blocks name the listed albums, in order. */
  lemma {:induction false} AlbumBlocksListed(albums: seq<string>, a: Summary)
    requires Listable(albums, a)
    ensures Named(AlbumBlocks(albums, a), ByAlbumLine) == albums
    decreases |albums|
  {
    if albums != [] {
      var prefix, album := albums[..|albums| - 1], albums[|albums| - 1];
      assert forall x | x in prefix :: x in albums;
      AlbumBlocksListed(prefix, a);
      assert AlbumBlocks(albums, a) == AlbumBlocks(prefix, a) + AlbumBlock(album, a);
      NamedAppend(AlbumBlocks(prefix, a), AlbumBlock(album, a), ByAlbumLine);
      AlbumBlockListed(album, a);
      assert albums == prefix + [album];
    }
  }

  lemma AlbumBlockListed(album: string, a: Summary)
    requires album in a.songsByAlbum.entries
    ensures Named(AlbumBlock(album, a), ByAlbumLine) == [album]
  {
    var rows := AlbumRows(a.songsByAlbum.entries[album]);
    assert forall i :: 0 <= i < |rows| ==> rows[i].SongRow?;
    NamedFramed(AlbumLine(album, CountOf(a.albums.entries, album)), rows, Blank, ByAlbumLine);
  }

  /** An album block: the album with its count, one row per kept song numbered from 1, and a
      blank line. */
  lemma AlbumBlockShape(album: string, a: Summary)
    requires album in a.songsByAlbum.entries
    ensures var b, songs := AlbumBlock(album, a), a.songsByAlbum.entries[album];
      && |b| == |songs| + 2
      && b[0] == AlbumLine(album, CountOf(a.albums.entries, album))
      && (forall i :: 1 <= i <= |songs| ==> b[i] == SongRow(i, songs[i - 1]))
      && b[|b| - 1] == Blank
  {
    var songs := a.songsByAlbum.entries[album];
    var rows := AlbumRows(songs);
    var b := AlbumBlock(album, a);
    forall i | 1 <= i <= |songs| ensures b[i] == SongRow(i, songs[i - 1]) {
      assert b[i] == rows[i - 1];
    }
  }

  /** Each album only in one catalog is shown with the number of its records and then one
      numbered row per record, in catalog order. */
  lemma AlbumBlockOfCatalog(data: seq<Song>, album: string)
    requires album in Albums(data)
    ensures album in Summarize(data).songsByAlbum.entries
    ensures var b, records := AlbumBlock(album, Summarize(data)), WithKey(data, AlbumOf, album);
      && |b| == |records| + 2
      && b[0] == AlbumLine(album, Some(|records|))
      && (forall i :: 1 <= i <= |records| ==> b[i] == SongRow(i, InfoOf(records[i - 1])))
      && b[|b| - 1] == Blank
  {
    SummarySpec(data, album);
    AlbumBlockShape(album, Summarize(data));
  }

  /** Each common album is shown with both counts and their difference, followed by a
      warning exactly when the counts differ (or either is missing). */
  lemma CommonBlockSpec(album: string, a1: Summary, a2: Summary, file1Name: string, file2Name: string)
    ensures var b, count1, count2 := CommonBlock(album, a1, a2, file1Name, file2Name),
        CountOf(a1.albums.entries, album), CountOf(a2.albums.entries, album);
      && |b| >= 3 && b[0] == CommonAlbum(album) && b[|b| - 1] == Blank
      && b[1] == CountPair(file1Name, count1, file2Name, count2, Difference(count1, count2))
      && (Warning in b <==> Differs(count1, count2))
      && Named(b, ByCommonAlbum) == [album]
  {
    var b := CommonBlock(album, a1, a2, file1Name, file2Name);
    assert b == [b[0]] + b[1..];
    NamedAppend([b[0]], b[1..], ByCommonAlbum);
    NamedOne(b[0], ByCommonAlbum);
    NamedNone(b[1..], ByCommonAlbum);
  }

  /** The difference text: "NaN" exactly when a count is missing; otherwise its sign is that
      of the second count minus the first, and it is "0" exactly when the counts agree. */
  lemma DiffTextSign(count1: Option<int>, count2: Option<int>)
    ensures var t := DiffText(Difference(count1, count2));
      && (t == "NaN" <==> count1.None? || count2.None?)
      && (count1.Some? && count2.Some? ==>
            && (t[0] == '+' <==> count2.value > count1.value)
            && (t[0] == '-' <==> count2.value < count1.value)
            && (t == "0" <==> !Differs(count1, count2)))
  {
    if count1.Some? && count2.Some? {
      var t := Signed(count2.value - count1.value);
      SignedSign(count2.value - count1.value);
      assert t != "NaN" by { assert t[0] != 'N'; }
    }
  }

  /** The common-album blocks name the common albums, in order. */
  lemma {:induction false} CommonBlocksListed(albums: seq<string>, a1: Summary, a2: Summary, file1Name: string, file2Name: string)
    ensures Named(CommonBlocks(albums, a1, a2, file1Name, file2Name), ByCommonAlbum) == albums
    decreases |albums|
  {
    if albums != [] {
      var prefix, album := albums[..|albums| - 1], albums[|albums| - 1];
      CommonBlocksListed(prefix, a1, a2, file1Name, file2Name);
      var b := CommonBlock(album, a1, a2, file1Name, file2Name);
      assert CommonBlocks(albums, a1, a2, file1Name, file2Name) == CommonBlocks(prefix, a1, a2, file1Name, file2Name) + b;
      NamedAppend(CommonBlocks(prefix, a1, a2, file1Name, file2Name), b, ByCommonAlbum);
      CommonBlockSpec(album, a1, a2, file1Name, file2Name);
      assert albums == prefix + [album];
    }
  }

  /** Two catalogs' summaries and their differences can always be reported: an album only in
      one catalog has a bucket in that catalog's summary. */
  lemma ReportReadyForCatalogs(data1: seq<Song>, data2: seq<Song>)
    ensures var a1, a2 := Summarize(data1), Summarize(data2);
      ReportReady(a1, a2, Compare.Compare(a1, a2))
  {
    var a1, a2 := Summarize(data1), Summarize(data2);
    AlbumDiffMembers(a1.albums.keys, a2.albums.keys);
    SummaryDomain(data1);
    SummaryDomain(data2);
  }

  /** For two catalogs, the block of an album of both (a common album, by `AlbumDiffMembers`)
      is the block of the numbers of its records in each. */
  lemma CommonAlbumOfCatalogs(data1: seq<Song>, data2: seq<Song>, album: string, file1Name: string, file2Name: string)
    requires album in Albums(data1) && album in Albums(data2)
    ensures CommonBlock(album, Summarize(data1), Summarize(data2), file1Name, file2Name)
      == CountsBlock(album, file1Name, Some(|WithKey(data1, AlbumOf, album)|), file2Name, Some(|WithKey(data2, AlbumOf, album)|))
  {
    CountOfCatalog(data1, album);
    CountOfCatalog(data2, album);
  }

  /** With two counts present, the block shows both and their difference, and the warning
      appears exactly when they differ. */
  lemma CommonCounts(album: string, file1Name: string, n1: int, file2Name: string, n2: int)
    ensures var b := CountsBlock(album, file1Name, Some(n1), file2Name, Some(n2));
      && b[1] == CountPair(file1Name, Some(n1), file2Name, Some(n2), Some(n2 - n1))
      && (Warning in b <==> n1 != n2)
  {
    var b := CountsBlock(album, file1Name, Some(n1), file2Name, Some(n2));
    if n1 == n2 {
      assert b == [CommonAlbum(album), b[1], Blank];
    } else {
      assert b[2] == Warning;
    }
  }

  /** The count the report shows for an album of a catalog is its number of records. */
  lemma CountOfCatalog(data: seq<Song>, album: string)
    requires album in Albums(data)
    ensures CountOf(Summarize(data).albums.entries, album) == Some(|WithKey(data, AlbumOf, album)|)
  {
    SummarySpec(data, album);
  }
  /** For two catalogs, the songs only in the first are listed one bullet each, under one
      run header per album, every album of those songs getting its header. */
  lemma SongRunsOfCatalogs(data1: seq<Song>, data2: seq<Song>)
    ensures var songs := Compare.Compare(Summarize(data1), Summarize(data2)).songs.onlyInFile1;
      var h := Named(RunLines(songs), ByRunHeader);
      && Bullets(RunLines(songs)) == songs
      && Distinct(h)
      && (forall a :: a in h <==> exists e :: e in songs && e.album == a)
  {
    var songs := Compare.Compare(Summarize(data1), Summarize(data2)).songs.onlyInFile1;
    OnlyInFirstListed(data1, data2);
    StrLeIsTotalOrder();
    RunBullets(songs);
    RunHeadersCover(songs);
    RunHeadersOnce(songs, StrLe);
  }

  lemma OnlyInFirstListed(data1: seq<Song>, data2: seq<Song>)
    ensures var songs := Compare.Compare(Summarize(data1), Summarize(data2)).songs.onlyInFile1;
      && (forall e :: e in songs ==> e.album != "")
      && SortedBy(songs, AlbumOfEntry, StrLe)
  {
    var songs := Compare.Compare(Summarize(data1), Summarize(data2)).songs.onlyInFile1;
    SongsOnlyInFirst(data1, data2);
    forall e | e in songs ensures e.album != "" {
      var x :| x in data1 && RecordEntry(x) == e;
    }
  }
}
