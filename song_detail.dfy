/** The decisions of the detail screen (ui/screens/SongDetailScreen.kt): its
    own copy of the time format, the duration it shows, which transport buttons
    are enabled, the slider, and the download name. */
module SongDetail {
  import opened KotlinText
  import opened Songs
  import SongItem
  import Downloads

  /** The screen's private `formatTime`, written out again in the source. */
  function FormatTime(ms: Int32): (r: string)
    ensures r == SongItem.FormatTime(ms)
  {
    var seconds := Rem(Div(ms, 1000), 60);
    var minutes := Rem(Div(ms, 1000 * 60), 60);
    Format02(minutes) + ":" + Format02(seconds)
  }

  /** The duration the screen uses: the song's own when known (even 0), the
      player's total otherwise. */
  function DisplayedDuration(song: Song, totalDuration: Int32): (dur: Int32)
    ensures song.durationMs.Some? ==> dur == song.durationMs.value
    ensures song.durationMs.None? ==> dur == totalDuration
  {
    song.durationMs.GetOr(totalDuration)
  }

  /** The "Durée" line: shown only for a positive displayed duration. */
  function DurationLine(song: Song, totalDuration: Int32): (line: Option<string>)
    ensures line.Some? <==> DisplayedDuration(song, totalDuration) > 0
    ensures line.Some? ==> line.value == "Durée: " + SongItem.FormatTime(DisplayedDuration(song, totalDuration))
  {
    var dur := DisplayedDuration(song, totalDuration);
    if dur > 0 then Some("Durée: " + FormatTime(dur)) else None
  }

  /** A known duration of 0 hides the line even when the player knows the
      length: the fallback applies only to a missing duration. */
  lemma ZeroDurationDoesNotFallBack(song: Song, totalDuration: Int32)
    requires song.durationMs == Some(0)
    ensures DurationLine(song, totalDuration) == None
  {
  }

  /** Where the list row shows a duration, the detail screen shows the same
      time; the detail screen may show more, from the player's total. */
  lemma DurationAgreesWithRow(song: Song, totalDuration: Int32)
    ensures SongItem.DurationText(song).Some? ==>
      DurationLine(song, totalDuration) == Some("Durée: " + SongItem.DurationText(song).value)
    ensures song.durationMs.None? && totalDuration > 0 ==>
      SongItem.DurationText(song).None? && DurationLine(song, totalDuration).Some?
  {
  }

  /** The "Pause" button is enabled for the current song while it plays. */
  predicate PauseEnabled(isCurrent: bool, isPlaying: bool)
    ensures PauseEnabled(isCurrent, isPlaying) ==> isCurrent && isPlaying
    ensures !isCurrent ==> !PauseEnabled(isCurrent, isPlaying)
  {
    isCurrent && isPlaying
  }

  /** The "Reprendre" button is enabled for the current song while paused. */
  predicate ResumeEnabled(isCurrent: bool, isPlaying: bool)
    ensures ResumeEnabled(isCurrent, isPlaying) ==> isCurrent && !isPlaying
    ensures !isCurrent ==> !ResumeEnabled(isCurrent, isPlaying)
  {
    isCurrent && !isPlaying
  }

  /** At most one of Pause and Resume is enabled, neither for a song that is
      not current, and each exactly when the list row's button would fire it. */
  lemma EnablementAgreesWithRow(isCurrent: bool, isPlaying: bool)
    ensures !(PauseEnabled(isCurrent, isPlaying) && ResumeEnabled(isCurrent, isPlaying))
    ensures !isCurrent ==> !PauseEnabled(isCurrent, isPlaying) && !ResumeEnabled(isCurrent, isPlaying)
    ensures PauseEnabled(isCurrent, isPlaying) <==> SongItem.ButtonAction(isCurrent, isPlaying) == SongItem.PauseClick
    ensures ResumeEnabled(isCurrent, isPlaying) <==> SongItem.ButtonAction(isCurrent, isPlaying) == SongItem.ResumeClick
  {
  }

  /** The slider is shown under the same rule as in the list row. */
  predicate SliderShown(isCurrent: bool, totalDuration: Int32)
    ensures !isCurrent ==> !SliderShown(isCurrent, totalDuration)
    ensures totalDuration <= 0 ==> !SliderShown(isCurrent, totalDuration)
  {
    isCurrent && totalDuration > 0
  }

  lemma SliderAgreesWithRow(isCurrent: bool, totalDuration: Int32)
    ensures SliderShown(isCurrent, totalDuration) <==> SongItem.SliderShown(isCurrent, totalDuration)
    ensures SliderShown(isCurrent, totalDuration) ==> isCurrent && totalDuration > 0
  {
  }

  /** The download button: the song's uri and the sanitised file name. */
  function DownloadRequest(song: Song): (request: (string, string))
    ensures request.0 == song.uri
    ensures forall i :: 0 <= i < |request.1| ==> request.1[i] != '/'
    ensures |request.1| >= 4 && request.1[|request.1| - 4..] == ".mp3"
  {
    (song.uri, Downloads.DownloadFileName(song.title, song.artist))
  }
}
