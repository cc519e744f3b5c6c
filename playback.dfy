/** The playback service (service/MusicService.kt): one media player, the song
    it was opened on, and the "is playing" flag the screens observe. */
module Playback {
  import opened KotlinText
  import opened Songs

  /** What the service relies on of a `MediaPlayer`: whether it plays, the
      position last sought to, the length of its source (read when prepared),
      and the uri it was opened on. */
  datatype Player = Player(playing: bool, position: Int32, duration: Int32, source: string)

  /** The service's observable state: `mediaPlayer`, `currentSong`, `isPlaying`. */
  datatype ServiceState = ServiceState(player: Option<Player>, currentSong: Option<Song>, isPlaying: bool)

  /** A freshly created service: no player, no song, not playing. */
  const Idle: ServiceState := ServiceState(None, None, false)

  /** The invariant the service keeps: a player exists exactly when a song is
      current, it was opened on that song's uri, and the observable flag agrees
      with the player. */
  predicate Consistent(s: ServiceState)
    ensures Consistent(s) ==> (s.currentSong.Some? ==> s.player.Some?)
    ensures Consistent(s) ==> (s.isPlaying ==> s.currentSong.Some?)
  {
    && (s.currentSong.Some? <==> s.player.Some?)
    && (s.isPlaying <==> s.player.Some? && s.player.value.playing)
    && (s.player.Some? ==> s.player.value.source == s.currentSong.value.uri)
  }

  /** `playSong(song)`, where `duration` is the length `prepare()` reads from
      the song's file. The same identity resumes the existing player (the code
      dereferences it with `!!`, so it must exist); another identity replaces
      the player by a new one started at the beginning. */
  function AfterPlay(s: ServiceState, song: Song, duration: Int32): (t: ServiceState)
    requires SameId(s.currentSong, song.id) ==> s.player.Some?
    ensures SameId(s.currentSong, song.id) ==> t.currentSong == s.currentSong && t.player == Some(s.player.value.(playing := true))
    ensures !SameId(s.currentSong, song.id) ==> t == ServiceState(Some(Player(true, 0, duration, song.uri)), Some(song), true)
    ensures Consistent(s) ==> Consistent(t) && t.isPlaying
  {
    if SameId(s.currentSong, song.id) then
      if !s.player.value.playing then s.(player := Some(s.player.value.(playing := true)), isPlaying := true)
      else s
    else
      ServiceState(Some(Player(true, 0, duration, song.uri)), Some(song), true)
  }

  /** `pause()`: only a playing player is paused. */
  function AfterPause(s: ServiceState): (t: ServiceState)
    ensures s.player.Some? && s.player.value.playing ==> t == s.(player := Some(s.player.value.(playing := false)), isPlaying := false)
    ensures !(s.player.Some? && s.player.value.playing) ==> t == s
    ensures Consistent(s) ==> Consistent(t) && !t.isPlaying
  {
    if s.player.Some? && s.player.value.playing then
      s.(player := Some(s.player.value.(playing := false)), isPlaying := false)
    else s
  }

  /** `resume()`: only an existing player that is not playing is started. */
  function AfterResume(s: ServiceState): (t: ServiceState)
    ensures s.player.Some? && !s.player.value.playing ==> t == s.(player := Some(s.player.value.(playing := true)), isPlaying := true)
    ensures s.player.None? || s.player.value.playing ==> t == s
    ensures Consistent(s) ==> Consistent(t) && (t.isPlaying <==> s.player.Some?)
  {
    if s.player.Some? && !s.player.value.playing then
      s.(player := Some(s.player.value.(playing := true)), isPlaying := true)
    else s
  }

  /** `seekTo(position)`: moves an existing player; without one nothing happens. */
  function AfterSeek(s: ServiceState, position: Int32): (t: ServiceState)
    ensures s.player.Some? ==> t.player == Some(s.player.value.(position := position))
    ensures s.player.None? ==> t == s
    ensures t.currentSong == s.currentSong && t.isPlaying == s.isPlaying
    ensures Consistent(s) ==> Consistent(t)
  {
    if s.player.Some? then s.(player := Some(s.player.value.(position := position))) else s
  }

  /** The completion listener: the player stops and the flag drops; the song
      stays current. */
  function AfterCompletion(s: ServiceState): (t: ServiceState)
    requires s.player.Some?
    ensures t.player == Some(s.player.value.(playing := false)) && !t.isPlaying
    ensures t.currentSong == s.currentSong
    ensures Consistent(s) ==> Consistent(t)
  {
    s.(player := Some(s.player.value.(playing := false)), isPlaying := false)
  }

  /** `getCurrentPosition()`: the player's position, 0 without a player. */
  function Position(s: ServiceState): (position: Int32)
    ensures s.player.None? ==> position == 0
    ensures s.player.Some? ==> position == s.player.value.position
  {
    if s.player.Some? then s.player.value.position else 0
  }

  /** `getDuration()`: the player's duration, 0 without a player. */
  function Duration(s: ServiceState): (duration: Int32)
    ensures s.player.None? ==> duration == 0
    ensures s.player.Some? ==> duration == s.player.value.duration
  {
    if s.player.Some? then s.player.value.duration else 0
  }

  // ---------------------------------------------------------------------------
  // Properties of the transitions

  /** Nothing plays in a fresh service, and it is consistent. */
  lemma IdleConsistent()
    ensures Consistent(Idle) && !Idle.isPlaying && Position(Idle) == 0 && Duration(Idle) == 0
  {
  }

  /** Pressing play twice on the same song plays it once: the second press
      neither restarts nor replaces the player. */
  lemma PlayIdempotent(s: ServiceState, song: Song, d1: Int32, d2: Int32)
    requires Consistent(s)
    ensures AfterPlay(AfterPlay(s, song, d1), song, d2) == AfterPlay(s, song, d1)
  {
  }

  /** Playing a song makes it the current song, identified by its id; the
      descriptor kept is the one given when the player was created. */
  lemma PlayMakesCurrent(s: ServiceState, song: Song, duration: Int32)
    requires Consistent(s)
    ensures var t := AfterPlay(s, song, duration);
      SameId(t.currentSong, song.id) && t.isPlaying
      && (SameId(s.currentSong, song.id) ==> Position(t) == Position(s) && Duration(t) == Duration(s))
      && (!SameId(s.currentSong, song.id) ==> Position(t) == 0 && Duration(t) == duration && t.currentSong == Some(song))
  {
  }

  /** Pausing then resuming a playing service returns it to where it was. */
  lemma PauseResume(s: ServiceState)
    requires Consistent(s) && s.isPlaying
    ensures AfterResume(AfterPause(s)) == s
  {
  }

  /** Resuming then pausing a paused service returns it to where it was. */
  lemma ResumePause(s: ServiceState)
    requires Consistent(s) && s.currentSong.Some? && !s.isPlaying
    ensures AfterPause(AfterResume(s)) == s
  {
  }

  /** Pause and resume are idempotent. */
  lemma PauseResumeIdempotent(s: ServiceState)
    ensures AfterPause(AfterPause(s)) == AfterPause(s)
    ensures AfterResume(AfterResume(s)) == AfterResume(s)
  {
  }

  /** Pause, resume, seek and completion never change the current song: only
      `playSong` with another identity does. */
  lemma CurrentSongStable(s: ServiceState, position: Int32)
    ensures AfterPause(s).currentSong == s.currentSong
    ensures AfterResume(s).currentSong == s.currentSong
    ensures AfterSeek(s, position).currentSong == s.currentSong
    ensures s.player.Some? ==> AfterCompletion(s).currentSong == s.currentSong
  {
  }

  /** A seek is read back by `getCurrentPosition()` when a player exists, and
      leaves the duration alone. */
  lemma SeekThenPosition(s: ServiceState, position: Int32)
    ensures s.player.Some? ==> Position(AfterSeek(s, position)) == position
    ensures s.player.None? ==> Position(AfterSeek(s, position)) == 0
    ensures Duration(AfterSeek(s, position)) == Duration(s)
  {
  }

  /** After a song completes, pressing play on it again starts the same player
      (it is not recreated) and the flag rises again. */
  lemma ReplayAfterCompletion(s: ServiceState, duration: Int32)
    requires Consistent(s) && s.player.Some?
    ensures var t := AfterPlay(AfterCompletion(s), s.currentSong.value, duration);
      t.isPlaying && t.currentSong == s.currentSong && t.player == Some(s.player.value.(playing := true))
  {
  }

  // ---------------------------------------------------------------------------
  // The service object

  class MusicService {
    /** `mediaPlayer`. */
    var player: Option<Player>
    /** `_currentSong`. */
    var currentSong: Option<Song>
    /** `_isPlaying`. */
    var isPlaying: bool

    function State(): ServiceState
      reads this
    {
      ServiceState(player, currentSong, isPlaying)
    }

    ghost predicate Valid()
      reads this
    {
      Consistent(State())
    }

    constructor()
      ensures State() == Idle && Valid()
    {
      player := None;
      currentSong := None;
      isPlaying := false;
    }

    /** `playSong`, with the duration `prepare()` would read from the file. */
    method PlaySong(song: Song, duration: Int32)
      requires SameId(currentSong, song.id) ==> player.Some?
      modifies this
      ensures State() == AfterPlay(old(State()), song, duration)
      ensures old(Valid()) ==> Valid() && isPlaying
    {
      if currentSong.Some? && currentSong.value.id == song.id {
        if !player.value.playing {
          player := Some(player.value.(playing := true));
          isPlaying := true;
        }
        return;
      }
      // the old player is released and a new one prepared and started
      player := Some(Player(true, 0, duration, song.uri));
      currentSong := Some(song);
      isPlaying := true;
    }

    /** `pause`. */
    method Pause()
      modifies this
      ensures State() == AfterPause(old(State()))
      ensures old(Valid()) ==> Valid() && !isPlaying
    {
      if player.Some? && player.value.playing {
        player := Some(player.value.(playing := false));
        isPlaying := false;
      }
    }

    /** `resume`. */
    method Resume()
      modifies this
      ensures State() == AfterResume(old(State()))
      ensures old(Valid()) ==> Valid() && (isPlaying <==> currentSong.Some?)
    {
      if player.Some? && !player.value.playing {
        player := Some(player.value.(playing := true));
        isPlaying := true;
      }
    }

    /** `seekTo`. */
    method SeekTo(position: Int32)
      modifies this
      ensures State() == AfterSeek(old(State()), position)
      ensures old(Valid()) ==> Valid()
    {
      if player.Some? {
        player := Some(player.value.(position := position));
      }
    }

    /** The completion listener installed on every new player. */
    method OnCompletion()
      requires player.Some?
      modifies this
      ensures State() == AfterCompletion(old(State()))
      ensures old(Valid()) ==> Valid() && !isPlaying
    {
      player := Some(player.value.(playing := false));
      isPlaying := false;
    }

    /** `getCurrentPosition`. */
    method GetCurrentPosition() returns (position: Int32)
      ensures position == Position(State())
      ensures player.None? ==> position == 0
    {
      if player.Some? {
        position := player.value.position;
      } else {
        position := 0;
      }
    }

    /** `getDuration`. */
    method GetDuration() returns (duration: Int32)
      ensures duration == Duration(State())
      ensures player.None? ==> duration == 0
    {
      if player.Some? {
        duration := player.value.duration;
      } else {
        duration := 0;
      }
    }
  }
}
