/**
 * The row mapper `MediaMetadataCompat.Builder.from(cursor)`: it looks up the
 * ten columns it needs, and only when all ten exist assigns the builder's
 * fields one by one. A missing column throws IllegalArgumentException, which
 * `from` swallows, leaving the builder as it was. The album is the name of
 * the file's parent directory; a non-empty path without any '/' makes
 * `substring(0, -1)` throw, and that exception is not caught.
 */
module RowMapper {
  import opened Wrappers
  import opened Text
  import opened MediaStore

  /** The value of one column at the cursor's current position. */
  datatype Value = Null | Str(s: string) | Integer(n: Int64)

  /** One cursor row: the columns it has, by name. */
  type Row = map<string, Value>

  /** Every `getColumnIndexOrThrow` of `from` succeeds. */
  predicate HasColumns(row: Row) {
    && ID in row && TITLE in row && ARTIST in row && ARTIST_ID in row && ALBUM in row
    && ALBUM_ID in row && DURATION in row && TRACK in row && DATA in row && DISPLAY_NAME in row
  }

  predicate IsLongColumn(row: Row, c: string) { c in row ==> row[c].Integer? }

  predicate IsStringColumn(row: Row, c: string) { c in row ==> !row[c].Integer? }

  /** The columns read with `getLong` hold numbers and those read with `getString` hold text or null. */
  predicate WellTyped(row: Row) {
    && IsLongColumn(row, ID) && IsLongColumn(row, ALBUM_ID) && IsLongColumn(row, DURATION) && IsLongColumn(row, TRACK)
    && IsStringColumn(row, TITLE) && IsStringColumn(row, ARTIST) && IsStringColumn(row, ALBUM)
    && IsStringColumn(row, DATA) && IsStringColumn(row, DISPLAY_NAME)
  }

  /** `cursor.getLong`. */
  function GetLong(row: Row, c: string): Int64
    requires c in row && row[c].Integer?
  {
    row[c].n
  }

  /** `cursor.getString`: the text, or null for a null column. */
  function GetString(row: Row, c: string): Option<string>
    requires c in row && !row[c].Integer?
  {
    if row[c].Str? then Some(row[c].s) else None
  }

  /** A builder field: never assigned, or assigned `value`. */
  datatype Field<T> = Unset | Set(value: T)

  /** The `MediaMetadataCompat` that `build()` produces: the fields `from` assigns. */
  datatype Metadata = Metadata(
    id: Field<string>,
    title: Field<string>,
    artist: Field<Option<string>>,
    album: Field<Option<string>>,
    duration: Field<int>,
    mediaUri: Field<string>,
    albumArtUri: Field<string>,
    trackNumber: Field<int>,
    flag: Field<int>,
    displayTitle: Field<string>,
    displaySubtitle: Field<Option<string>>,
    displayDescription: Field<Option<string>>,
    displayIconUri: Field<string>,
    downloadStatus: Field<int>)

  /** What a fresh `MediaMetadataCompat.Builder()` holds. */
  const Blank: Metadata :=
    Metadata(Unset, Unset, Unset, Unset, Unset, Unset, Unset, Unset, Unset, Unset, Unset, Unset, Unset, Unset)

  /**
   * The composed title "${title}(${displayName})": the title, then the display
   * name in parentheses, each rendered as "null" when the column is null.
   */
  function SongDisplayName(title: Option<string>, displayName: Option<string>): (r: string)
    ensures |r| == |Render(title)| + |Render(displayName)| + 2
    ensures r[..|Render(title)|] == Render(title)
    ensures r[|Render(title)|] == '(' && r[|r| - 1] == ')'
    ensures r[|Render(title)| + 1..|r| - 1] == Render(displayName)
    ensures title.None? ==> r[..4] == "null"
  {
    var r := Render(title) + "(" + Render(displayName) + ")";
    assert r[..|Render(title)|] == Render(title);
    assert r[|Render(title)| + 1..|r| - 1] == Render(displayName);
    r
  }

  /**
   * `ContentUris.withAppendedId(base, id).toString()`: the base, one '/', and
   * the id as a decimal text without separators that reads back as the id.
   */
  function WithAppendedId(base: string, id: int): (r: string)
    ensures |r| > |base| + 1
    ensures r[..|base| + 1] == base + "/"
    ensures IsCanonicalDecimal(r[|base| + 1..]) && '/' !in r[|base| + 1..]
    ensures ParseInt(r[|base| + 1..]) == Some(id)
  {
    var digits := IntToString(id);
    IntToStringRoundTrip(id);
    DecimalHasNoSeparator(digits);
    var r := base + "/" + digits;
    assert r[|base| + 1..] == digits;
    assert r[..|base| + 1] == base + "/";
    r
  }

  /** `ContentUris.parseId`: the number after the last '/' of `uri`. */
  function ParseId(uri: string): Option<int> {
    ParseInt(uri[LastIndexOf(uri, '/') + 1..])
  }

  /** An id appended to a URI can be read back, and the URI before it is the base. */
  lemma WithAppendedIdRoundTrip(base: string, id: int)
    ensures ParseId(WithAppendedId(base, id)) == Some(id)
    ensures var u := WithAppendedId(base, id); u[..LastIndexOf(u, '/')] == base
  {
    var digits := IntToString(id);
    var u := WithAppendedId(base, id);
    assert u == base + ['/'] + digits;
    DecimalHasNoSeparator(digits);
    LastIndexOfJoin(base, '/', digits);
    assert u[|base| + 1..] == digits;
    assert u[..|base|] == base;
    IntToStringRoundTrip(id);
  }

  /**
   * The album derived from a file path (the `lastIndexOf`/`substring` chain):
   * the text between the last two separators, or before the last one when
   * there is only one; `substring(0, -1)` throws when there is none.
   */
  function ParentDirName(path: string): (r: Result<string, StringIndexOutOfBounds>)
    ensures r.Failure? <==> '/' !in path
    ensures r.Success? ==> '/' !in r.value
  {
    var index := LastIndexOf(path, '/');
    var parent :- Substring(path, 0, index);
    var parentIndex := LastIndexOf(parent, '/');
    Substring(parent, parentIndex + 1, |parent|)
  }

  /** The derived album is the immediate parent directory of the file, whatever lies above it. */
  lemma ParentDirNameOf(prefix: string, dir: string, file: string)
    requires '/' !in dir && '/' !in file
    requires prefix == "" || prefix[|prefix| - 1] == '/'
    ensures ParentDirName(prefix + dir + "/" + file) == Success(dir)
  {
    var path := prefix + dir + "/" + file;
    assert path == (prefix + dir) + ['/'] + file;
    LastIndexOfJoin(prefix + dir, '/', file);
    assert path[0..|prefix + dir|] == prefix + dir;
    var parent := prefix + dir;
    if prefix == "" {
      assert parent == dir;
      assert parent[0..|parent|] == dir;
    } else {
      var above := prefix[..|prefix| - 1];
      assert parent == above + ['/'] + dir;
      LastIndexOfJoin(above, '/', dir);
      assert parent[|above| + 1..|parent|] == dir;
    }
  }

  /** A file three directories deep takes the innermost directory, not the grandparent, as its album. */
  lemma ParentNotGrandparent()
    ensures ParentDirName("/a/b/c/song.mp3") == Success("c")
  {
    assert "/a/b/" + "c" + "/" + "song.mp3" == "/a/b/c/song.mp3";
    ParentDirNameOf("/a/b/", "c", "song.mp3");
  }

  /** A relative path takes its first segment; a file directly under the root takes the empty album. */
  lemma ShallowPaths()
    ensures ParentDirName("dir/x.mp3") == Success("dir")
    ensures ParentDirName("/x.mp3") == Success("")
  {
    assert "" + "dir" + "/" + "x.mp3" == "dir/x.mp3";
    ParentDirNameOf("", "dir", "x.mp3");
  }

  /** The path column holds a non-empty text, so the album is derived from it. */
  predicate DerivesAlbum(path: Option<string>) {
    path.Some? && path.value != ""
  }

  /** The album: derived from a non-empty path, otherwise the album column as it is. */
  function AlbumOf(path: Option<string>, albumColumn: Option<string>): (r: Result<Option<string>, StringIndexOutOfBounds>)
    ensures r.Failure? <==> DerivesAlbum(path) && '/' !in path.value
    ensures !DerivesAlbum(path) ==> r == Success(albumColumn)
    ensures DerivesAlbum(path) && r.Success? ==>
              r.value == Some(ParentDirName(path.value).value) && '/' !in r.value.value
  {
    if DerivesAlbum(path) then
      var dir :- ParentDirName(path.value);
      Success(Some(dir))
    else Success(albumColumn)
  }

  /** The record of a row whose columns all exist, with album `album`. */
  function Filled(row: Row, album: Option<string>): Metadata
    requires WellTyped(row) && HasColumns(row)
  {
    var songDisplayName := SongDisplayName(GetString(row, TITLE), GetString(row, DISPLAY_NAME));
    var imageUri := WithAppendedId(ALBUM_ART_CONTENT_URI, GetLong(row, ALBUM_ID));
    Metadata(
      id := Set(IntToString(GetLong(row, ID))),
      title := Set(songDisplayName),
      artist := Set(GetString(row, ARTIST)),
      album := Set(album),
      duration := Set(GetLong(row, DURATION)),
      mediaUri := Set(WithAppendedId(EXTERNAL_CONTENT_URI, GetLong(row, ID))),
      albumArtUri := Set(imageUri),
      trackNumber := Set(GetLong(row, TRACK)),
      flag := Set(FLAG_PLAYABLE),
      displayTitle := Set(songDisplayName),
      displaySubtitle := Set(GetString(row, ARTIST)),
      displayDescription := Set(GetString(row, ALBUM)),
      displayIconUri := Set(imageUri),
      downloadStatus := Set(STATUS_DOWNLOADED))
  }

  /**
   * `MediaMetadataCompat.Builder().from(row).build()`: a blank record when a
   * column is missing, the exception of a separator-less path, otherwise
   * every field by its rule.
   */
  function MapRow(row: Row): (r: Result<Metadata, StringIndexOutOfBounds>)
    requires WellTyped(row)
    ensures !HasColumns(row) ==> r == Success(Blank)
    ensures HasColumns(row) ==>
              (r.Failure? <==> DerivesAlbum(GetString(row, DATA)) && '/' !in GetString(row, DATA).value)
    ensures HasColumns(row) && r.Success? ==>
              var m := r.value;
              var title := Render(GetString(row, TITLE)) + "(" + Render(GetString(row, DISPLAY_NAME)) + ")";
              var art := ALBUM_ART_CONTENT_URI + "/" + IntToString(GetLong(row, ALBUM_ID));
              && m.id == Set(IntToString(GetLong(row, ID)))
              && m.title == Set(title) && m.displayTitle == Set(title)
              && m.artist == Set(GetString(row, ARTIST)) && m.displaySubtitle == Set(GetString(row, ARTIST))
              && m.displayDescription == Set(GetString(row, ALBUM))
              && m.duration == Set(GetLong(row, DURATION)) && m.trackNumber == Set(GetLong(row, TRACK))
              && m.mediaUri == Set(EXTERNAL_CONTENT_URI + "/" + IntToString(GetLong(row, ID)))
              && m.albumArtUri == Set(art) && m.displayIconUri == Set(art)
              && m.flag == Set(FLAG_PLAYABLE) && m.downloadStatus == Set(STATUS_DOWNLOADED)
              && m.album == if DerivesAlbum(GetString(row, DATA))
                            then Set(Some(ParentDirName(GetString(row, DATA).value).value))
                            else Set(GetString(row, ALBUM))
  {
    if !HasColumns(row) then Success(Blank)
    else
      var album :- AlbumOf(GetString(row, DATA), GetString(row, ALBUM));
      Success(Filled(row, album))
  }

  /** A row whose file lies in directory `dir` gets `dir` as its album. */
  lemma AlbumIsParentDirectory(row: Row, prefix: string, dir: string, file: string)
    requires WellTyped(row) && HasColumns(row)
    requires row[DATA] == Str(prefix + dir + "/" + file)
    requires '/' !in dir && '/' !in file
    requires prefix == "" || prefix[|prefix| - 1] == '/'
    ensures MapRow(row).Success? && MapRow(row).value.album == Set(Some(dir))
  {
    ParentDirNameOf(prefix, dir, file);
  }

  /** The record's id, media URI and artwork URI all read back as the row's ids. */
  lemma MappedIdsRoundTrip(row: Row)
    requires WellTyped(row) && HasColumns(row) && MapRow(row).Success?
    ensures ParseInt(MapRow(row).value.id.value) == Some(GetLong(row, ID) as int)
    ensures ParseId(MapRow(row).value.mediaUri.value) == Some(GetLong(row, ID) as int)
    ensures ParseId(MapRow(row).value.albumArtUri.value) == Some(GetLong(row, ALBUM_ID) as int)
    ensures ParseId(MapRow(row).value.displayIconUri.value) == Some(GetLong(row, ALBUM_ID) as int)
  {
    IntToStringRoundTrip(GetLong(row, ID));
    WithAppendedIdRoundTrip(EXTERNAL_CONTENT_URI, GetLong(row, ID));
    WithAppendedIdRoundTrip(ALBUM_ART_CONTENT_URI, GetLong(row, ALBUM_ID));
  }

  /**
   * `MediaMetadataCompat.Builder`. Like the Android builder, which keeps one
   * bundle of key/value pairs, it holds one record of the fields assigned so far.
   */
  class MetadataBuilder {
    var fields: Metadata

    constructor ()
      ensures fields == Blank
    {
      fields := Blank;
    }

    /** `build()`: the record of the fields assigned so far. */
    function Build(): (m: Metadata)
      reads this
      ensures m == fields
    {
      fields
    }

    /**
     * `from(cursor)`. A missing column leaves every field as it was. A path
     * without a separator throws after id, title and artist are assigned.
     * Otherwise every field is assigned by its rule, as `Filled` lists them.
     */
    method From(row: Row) returns (outcome: Outcome<StringIndexOutOfBounds>)
      requires WellTyped(row)
      modifies this
      ensures !HasColumns(row) ==> outcome == Pass && fields == old(fields)
      ensures HasColumns(row) ==> (outcome.Fail? <==> AlbumOf(GetString(row, DATA), GetString(row, ALBUM)).Failure?)
      ensures HasColumns(row) && outcome.Pass? ==>
                fields == Filled(row, AlbumOf(GetString(row, DATA), GetString(row, ALBUM)).value)
      ensures HasColumns(row) && outcome.Fail? ==>
                fields == old(fields).(id := Set(IntToString(GetLong(row, ID))),
                                       title := Set(SongDisplayName(GetString(row, TITLE), GetString(row, DISPLAY_NAME))),
                                       artist := Set(GetString(row, ARTIST)))
    {
      // The ten getColumnIndexOrThrow lookups come first; IllegalArgumentException is ignored.
      if !HasColumns(row) {
        return Pass;
      }
      fields := fields.(id := Set(IntToString(GetLong(row, ID))));
      var songDisplayName := SongDisplayName(GetString(row, TITLE), GetString(row, DISPLAY_NAME));
      fields := fields.(title := Set(songDisplayName));
      fields := fields.(artist := Set(GetString(row, ARTIST)));
      var derived := AlbumOf(GetString(row, DATA), GetString(row, ALBUM));
      if derived.Failure? {
        return Fail(derived.error);
      }
      fields := fields.(album := Set(derived.value));
      fields := fields.(duration := Set(GetLong(row, DURATION)));
      fields := fields.(mediaUri := Set(WithAppendedId(EXTERNAL_CONTENT_URI, GetLong(row, ID))));
      var imageUri := WithAppendedId(ALBUM_ART_CONTENT_URI, GetLong(row, ALBUM_ID));
      fields := fields.(albumArtUri := Set(imageUri));
      fields := fields.(trackNumber := Set(GetLong(row, TRACK)));
      fields := fields.(flag := Set(FLAG_PLAYABLE));
      fields := fields.(displayTitle := Set(songDisplayName));
      fields := fields.(displaySubtitle := Set(GetString(row, ARTIST)));
      fields := fields.(displayDescription := Set(GetString(row, ALBUM)));
      fields := fields.(displayIconUri := Set(imageUri));
      fields := fields.(downloadStatus := Set(STATUS_DOWNLOADED));
      outcome := Pass;
    }
  }
}
