/** A track record as the scripts read it from a parsed JSON catalog, and the two ways
    the scripts turn its fields into text: template-literal rendering and the `||` fallback. */
module Tracks {
  import opened Seqs
  import opened Js

  datatype Option<T> = None | Some(value: T)

  /** A string-valued field (name, artist, album, ext): missing, JSON null, or a string. */
  datatype Field = Absent | Null | Str(s: string)

  /** A field that may also hold a number (id, bitrate). */
  datatype Scalar = Missing | Nil | Text(s: string) | Number(n: int)

  datatype Song = Song(name: Field, artist: Field, album: Field, id: Scalar, ext: Field, bitrate: Scalar)

  /** `${f}`: a missing field renders as "undefined", null as "null". */
  function Show(f: Field): string {
    match f
    case Absent => "undefined"
    case Null => "null"
    case Str(s) => s
  }

  /** `${v}` for a field that may hold a number. */
  function ShowScalar(v: Scalar): string {
    match v
    case Missing => "undefined"
    case Nil => "null"
    case Text(s) => s
    case Number(n) => Decimal(n)
  }

  /** JavaScript truthiness of a string field: only a non-empty string is truthy. */
  predicate Truthy(f: Field) {
    f.Str? && f.s != ""
  }

  /** `f || fallback` for a string field. */
  function OrElse(f: Field, fallback: string): (r: string)
    ensures Truthy(f) ==> r == f.s
    ensures !Truthy(f) ==> r == fallback
  {
    if Truthy(f) then f.s else fallback
  }

  /** The label both catalog tools use for a record without an album. */
  const UnknownAlbum: string := "未知专辑"

  /** `song.album || '未知专辑'`: the album bucket a record belongs to. Never empty. */
  function AlbumOf(song: Song): (a: string)
    ensures a != ""
    ensures Truthy(song.album) ==> a == song.album.s
    ensures !Truthy(song.album) ==> a == UnknownAlbum
  {
    OrElse(song.album, UnknownAlbum)
  }

  /** The albums of `songs` in order of first appearance: the order in which a loop that
      buckets the songs by `AlbumOf` creates its buckets. */
  function Albums(songs: seq<Song>): seq<string> {
    if songs == [] then []
    else
      var prev := Albums(songs[..|songs| - 1]);
      var a := AlbumOf(songs[|songs| - 1]);
      if a in prev then prev else prev + [a]
  }

  /** Every album occurs once, and exactly the albums of the songs occur. */
  lemma {:induction false} AlbumsSpec(songs: seq<Song>)
    ensures Distinct(Albums(songs))
    ensures forall a :: a in Albums(songs) <==> exists x :: x in songs && AlbumOf(x) == a
  {
    if songs != [] {
      var prefix := songs[..|songs| - 1];
      AlbumsSpec(prefix);
      assert songs == prefix + [songs[|songs| - 1]];
    }
  }
}
