/** The transport buttons as the activity wires them: each screen sees the
    service's current song and flag, and its callbacks call `playSong`,
    `pause` or `resume` on the service (ui/MainActivity.kt, the list screen's
    per-row projection, and the search dialog's preview button). */
module Controls {
  import opened KotlinText
  import opened Songs
  import opened Playback
  import SongItem
  import SearchDialog

  /** The list row of `song` pressed while the service is in state `s`: the row
      is current when the service's song has its id, and shows the service's
      flag. `duration` is what a new player would read from the file. */
  function PressRowButton(s: ServiceState, song: Song, duration: Int32): (t: ServiceState)
    requires Consistent(s)
    ensures Consistent(t)
  {
    match SongItem.ButtonAction(SameId(s.currentSong, song.id), s.isPlaying)
    case PauseClick => AfterPause(s)
    case ResumeClick => AfterResume(s)
    case PlayClick => AfterPlay(s, song, duration)
  }

  /** The row's button toggles: afterwards its song is current, and it plays
      exactly when it was not the current song playing before. */
  lemma RowButtonToggles(s: ServiceState, song: Song, duration: Int32)
    requires Consistent(s)
    ensures var t := PressRowButton(s, song, duration);
      SameId(t.currentSong, song.id) && (t.isPlaying <==> !(SameId(s.currentSong, song.id) && s.isPlaying))
  {
  }

  /** On the current song, pressing the row's button twice restores the state. */
  lemma RowButtonTwice(s: ServiceState, song: Song, duration: Int32)
    requires Consistent(s) && SameId(s.currentSong, song.id)
    ensures PressRowButton(PressRowButton(s, song, duration), song, duration) == s
  {
    if s.isPlaying {
      PauseResume(s);
    } else {
      ResumePause(s);
    }
  }

  /** The pause glyph is shown on a row exactly when the service plays its song. */
  lemma RowIconShowsPlayback(s: ServiceState, song: Song)
    requires Consistent(s)
    ensures SongItem.ButtonIcon(SameId(s.currentSong, song.id), s.isPlaying) == "⏸" <==>
      SameId(s.currentSong, song.id) && s.player.value.playing
  {
  }

  /** The id the search dialog receives: `currentSong?.id`. */
  function CurrentId(s: ServiceState): (id: Option<Long>)
    ensures id.Some? <==> s.currentSong.Some?
    ensures id.Some? ==> id.value == s.currentSong.value.id
  {
    if s.currentSong.Some? then Some(s.currentSong.value.id) else None
  }

  /** A result's preview button pressed while the service is in state `s`: the
      pause callback is `pause`, the toggle callback is `playSong`. */
  function PressPreviewButton(s: ServiceState, r: SearchDialog.SearchResult, duration: Int32): (t: ServiceState)
    requires Consistent(s)
    ensures Consistent(t)
  {
    match SearchDialog.PreviewClick(CurrentId(s), s.isPlaying, r)
    case PausePreview => AfterPause(s)
    case TogglePreview(song) => AfterPlay(s, song, duration)
  }

  /** The preview button does what the list row's button does on the result's
      song, although it has no resume branch: `playSong` on the current id
      resumes the paused player. */
  lemma PreviewAgreesWithRow(s: ServiceState, r: SearchDialog.SearchResult, duration: Int32)
    requires Consistent(s)
    ensures PressPreviewButton(s, r, duration) == PressRowButton(s, SearchDialog.ResultSong(r), duration)
  {
  }
}
