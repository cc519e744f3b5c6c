/** The track descriptor shared by every screen and by the playback service
    (model/Song.kt). */
module Songs {
  import opened KotlinText

  /** One playable track. The declared class lists id, title, artist and uri;
      every constructor call and every reader also passes an optional duration,
      which is modelled here. The uri is kept as its string form. */
  datatype Song = Song(id: Long, title: string, artist: string, uri: string, durationMs: Option<Int32>)

  /** Some song of `songs` carries identity `id` (Kotlin's `songs.any { it.id == id }`). */
  predicate HasId(songs: seq<Song>, id: Long) {
    exists i :: 0 <= i < |songs| && songs[i].id == id
  }

  /** No id occurs twice in `songs`. */
  ghost predicate UniqueIds(songs: seq<Song>) {
    forall i, j :: 0 <= i < j < |songs| ==> songs[i].id != songs[j].id
  }

  /** `current?.id == id`: songs are compared by identity throughout the app. */
  predicate SameId(current: Option<Song>, id: Long) {
    current.Some? && current.value.id == id
  }

  /** An artist name that stands for "no artist": blank, or the platform's
      placeholder "<unknown>" in any letter case. */
  predicate IsUnknownArtist(artist: string)
    ensures artist == [] ==> IsUnknownArtist(artist)
    ensures IsUnknownArtist(artist) && !IsBlank(artist) ==> |artist| == 9 && artist[0] == '<' && artist[8] == '>'
  {
    IsBlank(artist) || EqualsIgnoreCase(artist, "<unknown>")
  }
}
