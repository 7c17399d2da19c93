/**
 * The Android platform constants the media source uses: the audio table's
 * column names and content URIs (android.provider.MediaStore.Audio.Media),
 * the album-art URI, the metadata flag and download status it stores, and
 * the API level at which the structured query form appears.
 */
module MediaStore {
  const ID: string := "_id"
  const TITLE: string := "title"
  const ARTIST: string := "artist"
  const ARTIST_ID: string := "artist_id"
  const ALBUM: string := "album"
  const ALBUM_ID: string := "album_id"
  const DURATION: string := "duration"
  const TRACK: string := "track"
  const DATA: string := "_data"
  const DISPLAY_NAME: string := "_display_name"

  /** `MediaStore.Audio.Media.EXTERNAL_CONTENT_URI`. */
  const EXTERNAL_CONTENT_URI: string := "content://media/external/audio/media"
  /** The file-private `ALBUM_ART_CONTENT_URI` of the media source. */
  const ALBUM_ART_CONTENT_URI: string := "content://media/external/audio/albumart"

  /** `MediaBrowserCompat.MediaItem.FLAG_PLAYABLE`. */
  const FLAG_PLAYABLE: int := 2
  /** `MediaDescriptionCompat.STATUS_DOWNLOADED`. */
  const STATUS_DOWNLOADED: int := 2

  /** `Build.VERSION_CODES.O`, the first API level with the structured query form. */
  const VERSION_O: int := 26
}
