# Local media source of the UAMP sample player, in Dafny

This project models `LocalMediaSource` of the sample media player (UAMP).
It is the adapter that reads the device's local audio table and turns each
row into a track record for the player's catalog. It has three parts, which
run in sequence:

- **Query arguments** (`MediaQuery`).
  - `queryAllAudio` asks for every track of at least two minutes: selection
    `duration >= ?` with the one argument `"120000"`.
  - `queryMedia` forks on the SDK level. Below API level O (26) it appends
    a textual `LIMIT … OFFSET …` suffix to the sort clause.
  - From O on, `createSqlQueryBundle` puts the five optional arguments into
    a query bundle, or passes no bundle when all five are null.
- **Row mapper** (`RowMapper`), `MediaMetadataCompat.Builder.from(cursor)`.
  - All ten column lookups run before any field is assigned. If one column
    is missing, nothing is assigned: the builder comes back unchanged.
  - Otherwise every field is set by a fixed rule. The title is
    `title(display name)`. The album is the file's parent directory. The
    media and artwork URIs end in the row's ids. The flag is PLAYABLE and
    the download status DOWNLOADED.
- **Load lifecycle** (`CatalogLoader`), the `LocalMediaSource` class with
  its `catalog` and `state` fields.
  - It starts as INITIALIZING with an empty catalog.
  - `load` with no cursor installs an empty catalog and ERROR.
  - `load` with a cursor installs one record per row, in cursor order, and
    INITIALIZED.

Two small library modules support these. `Text` covers the Kotlin/Java
pieces the code relies on: 32- and 64-bit integers, `toString` (with a
decimal parser as its proved inverse), string templates of nullable values,
`lastIndexOf` and the throwing `substring`. Some readers have no counterpart in the code and exist only for the
round-trip lemmas. They are `Text.IndexOf` and `Text.ParseInt`,
`RowMapper.ParseId` (in the manner of `ContentUris.parseId`),
`MediaQuery.ReadQueryArgs`, and the legacy-suffix readers
`MediaQuery.ParseLimitOrder`, `ParseLimitBody` and `ParseOffsetClause`. `MediaStore` holds the
Android constants. These values come from the Android platform, not from the
file itself:

- the column names (`_id`, `title`, `_data`, …);
- `EXTERNAL_CONTENT_URI` = `content://media/external/audio/media`;
- the `QUERY_ARG_*` bundle keys;
- `FLAG_PLAYABLE` = 2 and `STATUS_DOWNLOADED` = 2;
- `VERSION_CODES.O` = 26.

How things are represented:

- A cursor row is a map from column name to value (null, text or a 64-bit
  number).
- A bundle is a map from key to value.
- A URI is its string form: `withAppendedId` appends `"/" + id`.
- The builder is a class holding one record of optional fields: unset, or
  set to a value.
- The resolver's answer to the catalog query is the input of `Load`. It is
  `None` when no cursor comes back, otherwise the cursor's rows in order.
- The SDK level is a parameter of `EncodeQuery` and `CatalogQuery`.

Consequences of the code as written, which the model keeps:

- **Album.** The `lastIndexOf`/`substring` chain gives the immediate
  parent directory of the file: "/a/b/c/song.mp3" gives "c"
  (`RowMapper.ParentNotGrandparent`, `RowMapper.ParentDirNameOf`).
- **Missing column.** Every column lookup precedes the first assignment, so
  a missing column leaves the builder exactly as it was. Its untouched
  record still goes into the catalog
  (`RowMapper.MetadataBuilder.From`, `CatalogLoader.MissingColumnKeepsRow`).
- **Path with no separator.** A non-empty path without any `/` makes
  `substring(0, -1)` throw `StringIndexOutOfBoundsException`. That is not
  an `IllegalArgumentException`, so `from` does not catch it.
  - It escapes `updateCatalog` and `load`, which leaves `catalog` and
    `state` untouched. The model reports it as a `Fail` outcome of `From`
    and `Load`.
  - By then `from` has already assigned id, title and artist.
- **Null sort order.** On the legacy path a null sort order is rendered as
  the text `null`, so the catalog query's sort argument is `"null  "`.

## Model

| member | source | states |
|---|---|---|
| `MediaQuery.SqlQueryBundle` | common/src/main/java/com/example/android/uamp/media/library/LocalMediaSource.kt:147-169 | no bundle exactly when all five arguments are null; otherwise each of the five keys is present iff its argument is, holds that argument's value, and there are no other keys |
| `MediaQuery.CreateSqlQueryBundle` | common/src/main/java/com/example/android/uamp/media/library/LocalMediaSource.kt:140-170 | the successive conditional puts return null iff all arguments are null, else a bundle with exactly one entry per present argument (and it equals `SqlQueryBundle`) |
| `MediaQuery.BundleRoundTrip` | common/src/main/java/com/example/android/uamp/media/library/LocalMediaSource.kt:128-130 | reading the five arguments back out of the bundle gives exactly the arguments passed in: the structured form loses nothing |
| `MediaQuery.LimitOrder` | common/src/main/java/com/example/android/uamp/media/library/LocalMediaSource.kt:114-116 | the legacy suffix is empty exactly when both limit and offset are null |
| `MediaQuery.LimitOrderRoundTrip` | common/src/main/java/com/example/android/uamp/media/library/LocalMediaSource.kt:114-116 | the suffix "LIMIT <limit or -1> <OFFSET offset or nothing>" reads back as its offset and its limit, where a missing limit beside an offset reads as -1 |
| `MediaQuery.LegacySortOrder` | common/src/main/java/com/example/android/uamp/media/library/LocalMediaSource.kt:122 | the legacy sort argument is the sort order (or "null"), two spaces, and a suffix that reads back as the limit and offset; it is just the sort order and two spaces exactly when neither limit nor offset is given |
| `MediaQuery.EncodeQuery` | common/src/main/java/com/example/android/uamp/media/library/LocalMediaSource.kt:113-133 | below API 26 the textual call with sort argument sortOrder (or "null") + two spaces + suffix, from 26 the bundle call; both pass URI, projection, selection and its arguments unchanged; the bundle passed is exactly `createSqlQueryBundle`'s (null iff all five arguments are null, no other keys) and reads back as the arguments |
| `MediaQuery.CatalogArgs` | common/src/main/java/com/example/android/uamp/media/library/LocalMediaSource.kt:80-85 | the catalog's arguments are selection "duration >= ?", the single argument "120000" (two minutes in ms), and no sort order, limit or offset |
| `MediaQuery.CatalogQuery` | common/src/main/java/com/example/android/uamp/media/library/LocalMediaSource.kt:76-87 | the catalog query goes to the external audio URI with no projection; below API 26 it is the textual call with that selection and argument and sort argument "null  ", from 26 the bundle call with a bundle encoding exactly those arguments |
| `MediaQuery.CatalogQueryShape` | common/src/main/java/com/example/android/uamp/media/library/LocalMediaSource.kt:76-87 | the whole catalog call, on each path, equals a literal: the legacy call with sort argument "null  ", or the bundle call whose bundle has just the two selection keys |
| `Text.IntToString` | common/src/main/java/com/example/android/uamp/media/library/LocalMediaSource.kt:193 | `Long.toString`: a canonical decimal text (no leading zero except in "0", no "-0"), with a leading '-' exactly for negative numbers |
| `Text.ParseIntCanonical` | common/src/main/java/com/example/android/uamp/media/library/LocalMediaSource.kt:193 | every canonical decimal text is exactly `toString` of the number it reads as, so together with the round trip `toString` is the one unpadded spelling of each number |
| `Text.IntToStringRoundTrip` | common/src/main/java/com/example/android/uamp/media/library/LocalMediaSource.kt:193 | the decimal text of a `Long` reads back as that number |
| `Text.LastIndexOf` | common/src/main/java/com/example/android/uamp/media/library/LocalMediaSource.kt:200-202 | -1 exactly when the character is absent, otherwise a position holding it with none after it |
| `Text.Substring` | common/src/main/java/com/example/android/uamp/media/library/LocalMediaSource.kt:201-203 | throws unless 0 <= begin <= end <= length, and otherwise yields the characters between begin and end |
| `RowMapper.ParentDirName` | common/src/main/java/com/example/android/uamp/media/library/LocalMediaSource.kt:199-204 | the derivation throws exactly when the path has no '/', and otherwise yields a name with no '/' in it |
| `RowMapper.ParentDirNameOf` | common/src/main/java/com/example/android/uamp/media/library/LocalMediaSource.kt:199-204 | for any path prefix + dir + "/" + file (prefix empty or ending in '/', no '/' in dir or file) the derived album is dir: the immediate parent directory |
| `RowMapper.ParentNotGrandparent` | common/src/main/java/com/example/android/uamp/media/library/LocalMediaSource.kt:199-204 | "/a/b/c/song.mp3" gives "c", the parent, not the grandparent "b" |
| `RowMapper.ShallowPaths` | common/src/main/java/com/example/android/uamp/media/library/LocalMediaSource.kt:199-204 | "dir/x.mp3" gives "dir" and "/x.mp3" gives "" |
| `RowMapper.SongDisplayName` | common/src/main/java/com/example/android/uamp/media/library/LocalMediaSource.kt:194 | the composed title is the title, '(' , the display name, ')', with a null column rendered as "null" |
| `RowMapper.WithAppendedId` | common/src/main/java/com/example/android/uamp/media/library/LocalMediaSource.kt:208-215 | the URI is the base, one '/', then a canonical decimal text (no leading zero) without separators that reads back as the id, which by `Text.ParseIntCanonical` makes it exactly `toString` of the id |
| `RowMapper.AlbumOf` | common/src/main/java/com/example/android/uamp/media/library/LocalMediaSource.kt:199-204 | with a null or empty path the album is the album column as it is (the `?:` fallback); with a non-empty path it throws exactly when the path has no '/', and otherwise is the non-null name `ParentDirName` derives from the path, which holds no '/' |
| `RowMapper.WithAppendedIdRoundTrip` | common/src/main/java/com/example/android/uamp/media/library/LocalMediaSource.kt:208-215 | a URI built by appending an id has the base before its last '/' and the id, readable back, after it |
| `RowMapper.MapRow` | common/src/main/java/com/example/android/uamp/media/library/LocalMediaSource.kt:174-238 | a missing column gives the blank record; with all columns it throws exactly for a non-empty path without '/'; otherwise title = displayTitle = title + "(" + display name + ")", id = the row id as text, artist = displaySubtitle = the artist column, displayDescription = the raw album column, album = parent directory of a non-empty path or else the raw album column, duration and track number as read, media URI = audio URI + "/" + id, artwork URI = icon URI = album-art URI + "/" + album id, flag PLAYABLE and status DOWNLOADED |
| `RowMapper.AlbumIsParentDirectory` | common/src/main/java/com/example/android/uamp/media/library/LocalMediaSource.kt:199-204 | a row whose file is prefix + dir + "/" + file maps without error and gets album dir |
| `RowMapper.MappedIdsRoundTrip` | common/src/main/java/com/example/android/uamp/media/library/LocalMediaSource.kt:193-216 | the record's id reads back as the row id, its media URI ends in the row id, and its artwork and icon URIs end in the album id |
| `RowMapper.MetadataBuilder.constructor` | common/src/main/java/com/example/android/uamp/media/library/LocalMediaSource.kt:65 | a fresh builder has every field unset |
| `RowMapper.MetadataBuilder.Build` | common/src/main/java/com/example/android/uamp/media/library/LocalMediaSource.kt:66 | `build()` returns exactly the fields assigned so far and changes nothing |
| `RowMapper.MetadataBuilder.From` | common/src/main/java/com/example/android/uamp/media/library/LocalMediaSource.kt:174-238 | a missing column leaves every field unchanged and returns normally; a separator-less path throws after setting only id, title and artist; otherwise every field is set by its rule |
| `CatalogLoader.MapAll` | common/src/main/java/com/example/android/uamp/media/library/LocalMediaSource.kt:60-70 | succeeds exactly when every row maps without throwing, and then holds one record per row, the i-th being the i-th row's record |
| `CatalogLoader.UpdateCatalog` | common/src/main/java/com/example/android/uamp/media/library/LocalMediaSource.kt:58-72 | the cursor loop with a fresh builder per row produces exactly `MapAll` of the rows, or the exception it throws |
| `CatalogLoader.MissingColumnKeepsRow` | common/src/main/java/com/example/android/uamp/media/library/LocalMediaSource.kt:63-68 | a row lacking a column is not skipped: its place in the catalog holds a blank record |
| `CatalogLoader.LocalMediaSource.constructor` | common/src/main/java/com/example/android/uamp/media/library/LocalMediaSource.kt:39-44 | a new source is INITIALIZING with an empty catalog |
| `CatalogLoader.LocalMediaSource.Iterator` | common/src/main/java/com/example/android/uamp/media/library/LocalMediaSource.kt:46 | yields the current catalog unchanged and changes nothing, so iterating again before the next load yields the same sequence |
| `CatalogLoader.LocalMediaSource.Load` | common/src/main/java/com/example/android/uamp/media/library/LocalMediaSource.kt:48-56 | no cursor gives an empty catalog and ERROR; a cursor (even an empty one) gives one record per row in order and INITIALIZED; an escaping mapping exception leaves catalog and state as they were |

## Left out

- `ContentResolver.query`, cursor movement and closing (`use`): these are I/O against a system service. The resolver's answer is the input of `Load`.
- `withContext(Dispatchers.IO)` and the suspend machinery: coroutine dispatching, not logic.
- Concurrent `load` calls: the model is sequential.
- `CancellationSignal`: always null on the loader path.
- `queryMedia`'s generic `block` parameter and its `?.use { result = block(it) }`: `Load` calls `UpdateCatalog` on the rows directly, and its `None` branch is the null result.
- The filtering itself: the store applies `duration >= 120000`, and the model stops at the query it is sent.
- `AbstractMusicSource` is not part of this model: its `state` setter also notifies listeners, and that is not modelled.
- `getLong`/`getString` on a value of the wrong type: that behaviour belongs to the cursor library. `WellTyped` requires numbers in the columns read with `getLong`, and text or null in those read with `getString`.
- The `artist_id` column: it is looked up (so its absence counts as a missing column) but never read.
- The bare expression `MediaStore.Audio.Artists.EXTERNAL_CONTENT_URI` at line 223: it has no effect.
- `Uri.parse` and `ContentUris`: URIs are their string forms.
