/** The decisions of one row of the song list (ui/components/SongItem.kt):
    the time format, the artist label, which texts and controls are shown, and
    which callback the play button fires. */
module SongItem {
  import opened KotlinText
  import opened Songs

  /** The seconds field of `formatTime`: `(milliseconds / 1000) % 60`. */
  function ClockSeconds(ms: Int32): int {
    Rem(Div(ms, 1000), 60)
  }

  /** The minutes field of `formatTime`: `(milliseconds / (1000 * 60)) % 60`. */
  function ClockMinutes(ms: Int32): int {
    Rem(Div(ms, 1000 * 60), 60)
  }

  /** `formatTime(milliseconds)`: minutes and seconds within the hour, each as
      `%02d`, with Kotlin's truncating `/` and `%`. */
  function FormatTime(ms: Int32): (r: string)
    ensures ms >= 0 ==> |r| == 5 && r[2] == ':' && AllDigits(r[..2]) && AllDigits(r[3..])
    ensures ms >= 0 ==> DigitsValue(r[..2]) == (ms / 60000) % 60 && DigitsValue(r[3..]) == (ms / 1000) % 60
  {
    var r := Format02(ClockMinutes(ms)) + ":" + Format02(ClockSeconds(ms));
    assert ms >= 0 ==> r[..2] == Format02(ClockMinutes(ms)) && r[3..] == Format02(ClockSeconds(ms));
    r
  }

  /** The minutes and seconds shown are those of the position within its hour:
      a whole hour more shows the same text. */
  lemma FormatTimeWrapsHourly(ms: Int32)
    requires 0 <= ms <= 0x7FFF_FFFF - 3_600_000
    ensures FormatTime(ms + 3_600_000) == FormatTime(ms)
  {
    SecondsHourLater(ms);
    MinutesHourLater(ms);
  }

  lemma SecondsHourLater(ms: Int32)
    requires 0 <= ms <= 0x7FFF_FFFF - 3_600_000
    ensures ClockSeconds(ms + 3_600_000) == ClockSeconds(ms)
  {
    var later: Int32 := ms + 3_600_000;
    ClockFields(ms);
    ClockFields(later);
    var t := ms / 1000;
    assert later / 1000 == t + 3600 by {
      assert later == 1000 * (t + 3600) + ms % 1000;
    }
  }

  lemma MinutesHourLater(ms: Int32)
    requires 0 <= ms <= 0x7FFF_FFFF - 3_600_000
    ensures ClockMinutes(ms + 3_600_000) == ClockMinutes(ms)
  {
    var later: Int32 := ms + 3_600_000;
    ClockFields(ms);
    ClockFields(later);
    var m := ms / 60000;
    assert later / 60000 == m + 60 by {
      assert later == 60000 * (m + 60) + ms % 60000;
    }
  }

  /** For a non-negative time the fields are Dafny's `/` and `%`. */
  lemma ClockFields(ms: Int32)
    requires ms >= 0
    ensures ClockSeconds(ms) == (ms / 1000) % 60 && ClockMinutes(ms) == (ms / 60000) % 60
  {
    assert Div(ms, 1000) == ms / 1000 && Div(ms, 60000) == ms / 60000;
  }

  /** Two non-negative times show the same text exactly when they fall on the
      same second within the hour. */
  lemma FormatTimeSameText(a: Int32, b: Int32)
    requires a >= 0 && b >= 0
    ensures FormatTime(a) == FormatTime(b) <==> (a / 1000) % 3600 == (b / 1000) % 3600
  {
    ClockOfHour(a);
    ClockOfHour(b);
    SecondOfHour(ClockMinutes(a), ClockSeconds(a), ClockMinutes(b), ClockSeconds(b));
    if FormatTime(a) == FormatTime(b) {
      assert FormatTime(a)[..2] == FormatTime(b)[..2] && FormatTime(a)[3..] == FormatTime(b)[3..];
    }
  }

  /** For a non-negative time, the two fields spell its second within the hour. */
  lemma ClockOfHour(ms: Int32)
    requires ms >= 0
    ensures 0 <= ClockSeconds(ms) < 60 && 0 <= ClockMinutes(ms) < 60
    ensures (ms / 1000) % 3600 == ClockMinutes(ms) * 60 + ClockSeconds(ms)
  {
    var t := ms / 1000;
    assert ms / 60000 == t / 60;
    assert t % 3600 == (t / 60) % 60 * 60 + t % 60;
  }

  /** Minutes and seconds below 60 name a second of the hour uniquely. */
  lemma SecondOfHour(m1: int, s1: int, m2: int, s2: int)
    requires 0 <= s1 < 60 && 0 <= s2 < 60
    ensures m1 * 60 + s1 == m2 * 60 + s2 <==> m1 == m2 && s1 == s2
  {
    if m1 < m2 {
      assert m1 * 60 + 60 <= m2 * 60;
    } else if m2 < m1 {
      assert m2 * 60 + 60 <= m1 * 60;
    }
  }

  /** A negative time is truncated toward zero: it shows "00:00" when it lies
      on a whole hour of seconds before zero, and a minus sign otherwise (the
      remainders are negative and `%02d` writes their sign). */
  lemma FormatTimeNegative(ms: Int32)
    requires ms < 0
    ensures (-(ms as int) / 1000) % 3600 == 0 ==> FormatTime(ms) == "00:00"
    ensures (-(ms as int) / 1000) % 3600 != 0 ==> '-' in FormatTime(ms)
  {
    var t: nat := -(ms as int) / 1000;
    NegativeFields(ms, t);
    var r := FormatTime(ms);
    if t % 3600 == 0 {
      assert ClockSeconds(ms) == 0 && ClockMinutes(ms) == 0;
      assert Format02(0) == "00";
    } else if ClockSeconds(ms) < 0 {
      assert r[|Format02(ClockMinutes(ms))| + 1] == '-';
    } else {
      assert r[0] == '-';
    }
  }

  /** The fields of a negative time are the negated fields of its magnitude. */
  lemma NegativeFields(ms: Int32, t: nat)
    requires ms < 0 && t == -(ms as int) / 1000
    ensures ClockSeconds(ms) == -(t % 60) && ClockMinutes(ms) == -((t / 60) % 60)
    ensures t % 3600 == 0 <==> t % 60 == 0 && (t / 60) % 60 == 0
  {
    assert -(ms as int) / 60000 == t / 60;
    assert t % 3600 == (t / 60) % 60 * 60 + t % 60;
  }

  /** The label under the title: a placeholder for a missing or unknown
      artist, the artist otherwise. */
  function ArtistLabel(artist: string): (shown: string)
    ensures IsUnknownArtist(artist) ==> shown == "Artiste inconnu"
    ensures !IsUnknownArtist(artist) ==> shown == artist
  {
    if IsBlank(artist) || EqualsIgnoreCase(artist, "<unknown>") then "Artiste inconnu" else artist
  }

  /** The label is never itself blank or "<unknown>", and it reads as the
      placeholder exactly for unknown artists and the artist called so. */
  lemma ArtistLabelKnown(artist: string)
    ensures !IsUnknownArtist(ArtistLabel(artist))
    ensures ArtistLabel(artist) == "Artiste inconnu" <==> IsUnknownArtist(artist) || artist == "Artiste inconnu"
  {
    var placeholder := "Artiste inconnu";
    assert !IsWhitespace(placeholder[0]);
    assert |placeholder| != |"<unknown>"|;
  }

  /** The duration text of a row: shown only for a known positive duration. */
  function DurationText(song: Song): (text: Option<string>)
    ensures text.Some? <==> song.durationMs.Some? && song.durationMs.value > 0
    ensures text.Some? ==> text.value == FormatTime(song.durationMs.value)
  {
    var dur := song.durationMs.GetOr(0);
    if dur > 0 then Some(FormatTime(dur)) else None
  }

  /** The callback the round play button fires. */
  datatype Action = PauseClick | ResumeClick | PlayClick

  /** The play button's dispatch: pause the current playing song, resume the
      current paused song, play any other song. */
  function ButtonAction(isCurrentSong: bool, isPlaying: bool): (a: Action)
    ensures a == PauseClick <==> isCurrentSong && isPlaying
    ensures a == ResumeClick <==> isCurrentSong && !isPlaying
    ensures a == PlayClick <==> !isCurrentSong
  {
    if isCurrentSong && isPlaying then PauseClick
    else if isCurrentSong && !isPlaying then ResumeClick
    else PlayClick
  }

  /** The glyph on the play button. */
  function ButtonIcon(isCurrentSong: bool, isPlaying: bool): (icon: string)
    ensures icon == "⏸" <==> isCurrentSong && isPlaying
    ensures icon != "⏸" ==> icon == "▶"
  {
    if isCurrentSong && isPlaying then "⏸" else "▶"
  }

  /** The button shows the pause glyph exactly when pressing it pauses. */
  lemma IconMatchesAction(isCurrentSong: bool, isPlaying: bool)
    ensures ButtonIcon(isCurrentSong, isPlaying) == "⏸" <==> ButtonAction(isCurrentSong, isPlaying) == PauseClick
  {
  }

  /** The position slider and its time row appear only on the current song,
      once its length is known. */
  predicate SliderShown(isCurrentSong: bool, totalDuration: Int32)
    ensures !isCurrentSong ==> !SliderShown(isCurrentSong, totalDuration)
    ensures totalDuration <= 0 ==> !SliderShown(isCurrentSong, totalDuration)
  {
    isCurrentSong && totalDuration > 0
  }
}
