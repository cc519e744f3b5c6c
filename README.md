# A verified model of the music player's library, playback and controls

This project models the logic of an Android music player written in Kotlin.
Three parts are covered:

- **The library catalog** (`MainActivity`). It holds the song list shown to
  the user, the song whose detail screen is open, and two preferences: the
  string set `deleted_ids` and the JSON array `added_songs`. The model covers
  adding a song found online, deleting a song everywhere, replacing or
  appending a record in the stored array, reading that array back tolerantly,
  and the merge at the end of `loadSongs` (drop deleted ids, then append the
  persisted songs not already listed).
- **The playback service** (`MusicService`). It holds one media player, the
  current song and the observable "is playing" flag. The model covers play,
  pause, resume, seek, the position and duration queries, and the completion
  listener.
- **The screens' decisions** (`SongItem`, `SongDetailScreen`,
  `SearchSongDialog`). The model covers the `mm:ss` time format, the artist
  label, which texts, buttons and sliders are shown or enabled, the button
  dispatch, the download file name, and how the online catalogue's answer
  becomes result rows.

Stateful code is modelled as Dafny classes: `Catalog.Library`,
`Playback.MusicService` and `SearchDialog.SearchSongDialog`. Their methods are
proved against specification functions, and the properties are lemmas about
those functions. Kotlin semantics are written out in `KotlinText`:

- `Long` and `Int` are bounded subset types.
- `/` and `%` truncate toward zero.
- `%02d` keeps the sign of a negative value.
- `toLongOrNull` is modelled on an optional sign followed by ASCII digits, within the `Long` range.
- `isBlank` uses Kotlin's whitespace set.

Files: `kotlin_text.dfy`, `songs.dfy`, `added_songs.dfy`, `catalog.dfy`,
`playback.dfy`, `downloads.dfy`, `song_item.dfy`, `song_detail.dfy`,
`search_dialog.dfy`, `controls.dfy`.

Three facts about the code that shape the model:

- **Duration field.** `model/Song.kt` declares four fields: id, title, artist
  and uri. Yet every constructor call and every reader passes an `Int?`
  duration, so `Song` carries `durationMs: Option<Int32>`.
- **Artist refinement.** `Catalog.DeviceArtist` replaces the index's artist
  whenever the file metadata names a real artist, whatever the index said.
- **Ids are not unique.** The code checks ids only when it adds a song:
  `addExternalSong` and the merge's filter skip an id already listed
  (`Catalog.Library.AddExternalSong`, `Catalog.FreshPersistedUnique`). Demo
  and device songs are never compared, so demo ids 1001 to 1005 can collide
  with MediaStore ids, and such a row is listed beside the demo song. So
  `Catalog.MergeUnique` is conditional: the merge keeps ids distinct only
  when the loaded songs and the persisted songs each have distinct ids.

Deleted ids are never cleared. A song that is deleted and then added again
is listed until the next load, and then it disappears
(`Catalog.MergeExcludesDeleted`).

`deleteSong` can leave a deleted song's record in a stored array that holds
a non-object: the removal loop throws on that element and the store is kept
as it was. The record is never read back, because such a store reads as the
empty list (`AddedSongs.RemoveLeavesNone`).

## Model

| member | source | states |
|---|---|---|
| `KotlinText.ParseLong` | app/src/main/java/com/example/myapplication/ui/MainActivity.kt:369-372 | `toLongOrNull`: a number parses only from an optional sign and then digits, with a negative value only after "-"; plain digits within the `Long` range read back as their value |
| `KotlinText.LongRoundTrip` | app/src/main/java/com/example/myapplication/ui/MainActivity.kt:374-378 | what `id.toString()` writes, `toLongOrNull()` reads back as the same id |
| `KotlinText.IntToString` | app/src/main/java/com/example/myapplication/ui/MainActivity.kt:376 | the decimal form starts with '-' exactly for negative values |
| `KotlinText.Div` | app/src/main/java/com/example/myapplication/ui/components/SongItem.kt:196-197 | Kotlin division truncates toward zero: the quotient times the divisor lies at or below a non-negative dividend, and at or above a negative one, by less than one divisor |
| `KotlinText.Rem` | app/src/main/java/com/example/myapplication/ui/components/SongItem.kt:196-197 | the remainder has the sign of the dividend and is smaller in magnitude than the divisor |
| `KotlinText.Format02` | app/src/main/java/com/example/myapplication/ui/components/SongItem.kt:198 | `%02d` of 0..99 is two digits reading back the value |
| `KotlinText.ReplaceChar` | app/src/main/java/com/example/myapplication/ui/components/SearchSongDialog.kt:195 | `replace` of one character keeps the length and swaps exactly the matching positions (used by the download names) |
| `KotlinText.NatToString` | app/src/main/java/com/example/myapplication/ui/MainActivity.kt:376 | decimal digits without leading zeros: at least one digit, one digit exactly below 10 |
| `KotlinText.DigitsRoundTrip` | app/src/main/java/com/example/myapplication/ui/MainActivity.kt:371 | reading back the digits of a number gives the number |
| `KotlinText.IsWhitespace` | app/src/main/java/com/example/myapplication/ui/components/SongItem.kt:90 | `Char.isWhitespace`: space, tab, newline and return are whitespace; no printable ASCII character is |
| `KotlinText.IsBlank` | app/src/main/java/com/example/myapplication/ui/MainActivity.kt:392 | `isBlank`: the empty text is blank; a non-empty blank text neither starts nor ends with a printable ASCII character |
| `KotlinText.EqualsIgnoreCase` | app/src/main/java/com/example/myapplication/ui/components/SongItem.kt:90 | `equals(ignoreCase = true)`: reflexive, only between texts of equal length, and exact on a leading character that is not a letter |
| `Songs.IsUnknownArtist` | app/src/main/java/com/example/myapplication/ui/components/SongItem.kt:90 | an empty artist is unknown; a non-blank unknown artist is nine characters from '<' to '>', "<unknown>" in some case |
| `AddedSongs.NewEntry` | app/src/main/java/com/example/myapplication/ui/MainActivity.kt:420-427 | a new record is an object holding the song's id, title, artist and uri, with a duration key exactly when the song has one |
| `AddedSongs.Overwrite` | app/src/main/java/com/example/myapplication/ui/MainActivity.kt:411-416 | the in-place update keeps the record's id, writes the song's title, artist and uri, and puts or drops the duration key with the song's duration |
| `AddedSongs.ScanFrom` | app/src/main/java/com/example/myapplication/ui/MainActivity.kt:409-419 | the loop stops at the first record with the id, or at the first non-object (which throws), or runs off the end with no match |
| `AddedSongs.WithoutKey` | app/src/main/java/com/example/myapplication/ui/MainActivity.kt:437-443 | the rebuilt array holds only records of other ids and is no longer |
| `AddedSongs.DecodeEntry` | app/src/main/java/com/example/myapplication/ui/MainActivity.kt:386-395 | a record yields a song exactly when its id is non-zero and its uri non-blank, with that id, uri and duration, and "Inconnu" for a missing title or artist |
| `AddedSongs.AfterPersist` | app/src/main/java/com/example/myapplication/ui/MainActivity.kt:403-431 | a missing or blank key becomes an array of the one new record; unparseable text, or an array whose scan meets a non-object first, is left as it was; an array keeps its length or grows by one |
| `AddedSongs.AfterRemove` | app/src/main/java/com/example/myapplication/ui/MainActivity.kt:433-446 | only an array of objects changes; it does not grow and loses every record of the id; anything else is left as it was |
| `AddedSongs.DecodeAll` | app/src/main/java/com/example/myapplication/ui/MainActivity.kt:385-396 | the reader yields at most one song per record |
| `AddedSongs.PersistedSongs` | app/src/main/java/com/example/myapplication/ui/MainActivity.kt:380-401 | a missing key, unparseable text or an array with a non-object reads as the empty list; otherwise at most one song per record |
| `AddedSongs.NewEntryRoundTrip` | app/src/main/java/com/example/myapplication/ui/MainActivity.kt:420-427 | a stored new record reads back as the song when the reader's filter admits it |
| `AddedSongs.OverwriteRoundTrip` | app/src/main/java/com/example/myapplication/ui/MainActivity.kt:411-416 | an overwritten record reads back as the song; a null duration removes the key |
| `AddedSongs.PersistShape` | app/src/main/java/com/example/myapplication/ui/MainActivity.kt:403-429 | the first record with the id is updated where it stands and all others are untouched; with none, exactly one record is appended |
| `AddedSongs.PersistCount` | app/src/main/java/com/example/myapplication/ui/MainActivity.kt:403-429 | persisting leaves the number of records with the id at one if there were none, unchanged otherwise |
| `AddedSongs.PersistIdempotent` | app/src/main/java/com/example/myapplication/ui/MainActivity.kt:403-431 | persisting the same song twice equals persisting it once, whatever the store held |
| `AddedSongs.CountKeyAppend` | app/src/main/java/com/example/myapplication/ui/MainActivity.kt:427 | records counted per id add up over concatenation |
| `AddedSongs.CountKeyZero` | app/src/main/java/com/example/myapplication/ui/MainActivity.kt:420 | an array the scan crossed without a match holds no record of the id |
| `AddedSongs.CountKeyUpdate` | app/src/main/java/com/example/myapplication/ui/MainActivity.kt:411-416 | updating a record in place without changing its id keeps every count |
| `AddedSongs.CountKeyAt` | app/src/main/java/com/example/myapplication/ui/MainActivity.kt:411 | a matched record counts for its id |
| `AddedSongs.ScanSameUntil` | app/src/main/java/com/example/myapplication/ui/MainActivity.kt:409-419 | arrays that agree up to the match are scanned alike |
| `AddedSongs.WithoutKeyAppend` | app/src/main/java/com/example/myapplication/ui/MainActivity.kt:438-443 | removal distributes over concatenation, so order is kept |
| `AddedSongs.WithoutKeyAbsent` | app/src/main/java/com/example/myapplication/ui/MainActivity.kt:433-446 | removing an id no record has leaves the array as it was |
| `AddedSongs.WithoutKeyCount` | app/src/main/java/com/example/myapplication/ui/MainActivity.kt:438-443 | removal keeps every record of the other ids |
| `AddedSongs.RemoveLeavesNone` | app/src/main/java/com/example/myapplication/ui/MainActivity.kt:433-446 | for any store, no read-back song has the id after removal; when the result is an array of objects, no record has it |
| `AddedSongs.DecodeAllAppend` | app/src/main/java/com/example/myapplication/ui/MainActivity.kt:385-396 | the reader keeps array order |
| `AddedSongs.DecodeAllFiltered` | app/src/main/java/com/example/myapplication/ui/MainActivity.kt:392 | every song read back has a non-zero id and a non-blank uri |
| `AddedSongs.DecodeAllKeys` | app/src/main/java/com/example/myapplication/ui/MainActivity.kt:387-394 | an id with no record yields no song |
| `AddedSongs.PersistThenRead` | app/src/main/java/com/example/myapplication/ui/MainActivity.kt:380-429 | a persisted song that passes the filter is read back by the next read of a readable store |
| `AddedSongs.PersistKeepsUnique` | app/src/main/java/com/example/myapplication/ui/MainActivity.kt:403-429 | persisting never creates a second record for an id |
| `AddedSongs.RemoveKeepsUnique` | app/src/main/java/com/example/myapplication/ui/MainActivity.kt:433-446 | removal never creates a duplicate record |
| `AddedSongs.DecodeUnique` | app/src/main/java/com/example/myapplication/ui/MainActivity.kt:380-401 | a store with one record per id reads back songs with distinct ids |
| `Catalog.DemoSong` | app/src/main/java/com/example/myapplication/ui/MainActivity.kt:295-299 | demo song k has id 1000+k and no duration |
| `Catalog.DemoSongs` | app/src/main/java/com/example/myapplication/ui/MainActivity.kt:294-300 | there are five demo songs |
| `Catalog.DemoSongsShape` | app/src/main/java/com/example/myapplication/ui/MainActivity.kt:294-300 | the demo ids are 1001..1005 in order, hence distinct; artist "SoundHelix", no duration |
| `Catalog.DeviceArtist` | app/src/main/java/com/example/myapplication/ui/MainActivity.kt:341-346 | the metadata artist (artist tag, else album artist) replaces the index's artist exactly when it is non-blank and not "<unknown>" in any case |
| `Catalog.MetaArtist` | app/src/main/java/com/example/myapplication/ui/MainActivity.kt:342-343 | the artist tag, or the album artist when the tag is null; nothing when the retriever failed |
| `Catalog.DeviceSong` | app/src/main/java/com/example/myapplication/ui/MainActivity.kt:330-348 | the song of a cursor row: its id, title and duration, the refined artist, and the content uri ending in the id |
| `Catalog.DeviceSongs` | app/src/main/java/com/example/myapplication/ui/MainActivity.kt:329-349 | one song per cursor row, in row order |
| `Catalog.WithoutIds` | app/src/main/java/com/example/myapplication/ui/MainActivity.kt:357 | `removeAll`: a song stays exactly when its id is not removed |
| `Catalog.FreshPersisted` | app/src/main/java/com/example/myapplication/ui/MainActivity.kt:362 | a persisted song is appended exactly when it is not deleted and no listed song has its id |
| `Catalog.FreshPersistedAppend` | app/src/main/java/com/example/myapplication/ui/MainActivity.kt:362-363 | the filter distributes over concatenation, so the appended persisted songs keep their array order |
| `Catalog.Merge` | app/src/main/java/com/example/myapplication/ui/MainActivity.kt:355-364 | the merged list starts with the kept loaded songs in order and holds at most the loaded plus the persisted songs |
| `Catalog.MergeExcludesDeleted` | app/src/main/java/com/example/myapplication/ui/MainActivity.kt:355-364 | no song of the merged catalog has a deleted id |
| `Catalog.MergeAppendsFresh` | app/src/main/java/com/example/myapplication/ui/MainActivity.kt:360-364 | each appended song is a persisted song whose id the kept list lacks |
| `Catalog.MergeMembers` | app/src/main/java/com/example/myapplication/ui/MainActivity.kt:355-364 | membership of the merged catalog, both directions |
| `Catalog.WithoutIdsAppend` | app/src/main/java/com/example/myapplication/ui/MainActivity.kt:301-357 | removing deleted ids keeps demo songs before device songs |
| `Catalog.WithoutIdsNone` | app/src/main/java/com/example/myapplication/ui/MainActivity.kt:356 | skipping `removeAll` for an empty set changes nothing |
| `Catalog.WithoutIdsUnique` | app/src/main/java/com/example/myapplication/ui/MainActivity.kt:357 | removal keeps ids distinct |
| `Catalog.FreshPersistedUnique` | app/src/main/java/com/example/myapplication/ui/MainActivity.kt:362 | filtering keeps ids distinct |
| `Catalog.MergeUnique` | app/src/main/java/com/example/myapplication/ui/MainActivity.kt:355-364 | the merged catalog has distinct ids when the loaded and persisted songs each do |
| `Catalog.ParsedIds` | app/src/main/java/com/example/myapplication/ui/MainActivity.kt:369-372 | an id is deleted exactly when some stored string parses to it |
| `Catalog.MarkedIdParses` | app/src/main/java/com/example/myapplication/ui/MainActivity.kt:374-378 | marking adds exactly the id, removes none, and marking twice is marking once |
| `Catalog.UnparseableIgnored` | app/src/main/java/com/example/myapplication/ui/MainActivity.kt:371 | a stored string that is not a number is dropped |
| `Catalog.Library.constructor` | app/src/main/java/com/example/myapplication/ui/MainActivity.kt:56-85 | an activity starts with an empty list, no open song, and the stored preferences |
| `Catalog.Library.DeletedIds` | app/src/main/java/com/example/myapplication/ui/MainActivity.kt:369-372 | `getDeletedIds` reads the stored strings that parse as a `Long` |
| `Catalog.Library.MarkDeleted` | app/src/main/java/com/example/myapplication/ui/MainActivity.kt:374-378 | the stored set gains the id's decimal form and the deleted ids gain exactly the id |
| `Catalog.Library.GetPersistedAddedSongs` | app/src/main/java/com/example/myapplication/ui/MainActivity.kt:380-401 | the loop returns the read-back songs; a missing key, unparseable text or a non-object gives the empty list |
| `Catalog.Library.PersistAddedSong` | app/src/main/java/com/example/myapplication/ui/MainActivity.kt:403-431 | the loop with its `replaced` flag leaves the store as replace-or-append describes; a failure leaves it unchanged |
| `Catalog.Library.RemovePersistedSong` | app/src/main/java/com/example/myapplication/ui/MainActivity.kt:433-446 | the loop leaves the records of other ids in order; a missing key or a failure changes nothing |
| `Catalog.Library.AddExternalSong` | app/src/main/java/com/example/myapplication/ui/MainActivity.kt:244-250 | a listed id changes nothing; otherwise the song is appended and persisted; distinct ids stay distinct |
| `Catalog.Library.DeleteSong` | app/src/main/java/com/example/myapplication/ui/MainActivity.kt:276-284 | afterwards no listed or stored song has the id, the id is deleted, and an open detail of that id is closed |
| `Catalog.Library.LoadSongs` | app/src/main/java/com/example/myapplication/ui/MainActivity.kt:287-365 | the list is the merge of demo then device songs with the deleted ids and the persisted songs |
| `Catalog.Library.AddDeviceSongs` | app/src/main/java/com/example/myapplication/ui/MainActivity.kt:329-349 | the cursor loop appends one song per row in order, with the refined artist |
| `Catalog.Library.MergeAdjustments` | app/src/main/java/com/example/myapplication/ui/MainActivity.kt:355-364 | the end of `loadSongs` computes the merge, including the two emptiness guards |
| `Playback.AfterPlay` | app/src/main/java/com/example/myapplication/service/MusicService.kt:63-103 | the same id restarts only a stopped player and keeps the current song; another id installs a new playing player at 0 on the song's uri; the invariant is kept and the service plays |
| `Playback.AfterPause` | app/src/main/java/com/example/myapplication/service/MusicService.kt:108-116 | only a playing player is paused; afterwards nothing plays |
| `Playback.AfterResume` | app/src/main/java/com/example/myapplication/service/MusicService.kt:121-127 | only an existing stopped player is started; afterwards the service plays exactly when a player exists |
| `Playback.AfterSeek` | app/src/main/java/com/example/myapplication/service/MusicService.kt:131-133 | only an existing player moves; song and flag unchanged |
| `Playback.AfterCompletion` | app/src/main/java/com/example/myapplication/service/MusicService.kt:92-95 | the flag drops and the current song stays |
| `Playback.Consistent` | app/src/main/java/com/example/myapplication/service/MusicService.kt:33-40 | the service invariant: a current song implies a player, and the playing flag implies a current song |
| `Playback.Position` | app/src/main/java/com/example/myapplication/service/MusicService.kt:136-138 | the player's position, 0 without a player |
| `Playback.Duration` | app/src/main/java/com/example/myapplication/service/MusicService.kt:141-143 | the player's duration, 0 without a player |
| `Playback.IdleConsistent` | app/src/main/java/com/example/myapplication/service/MusicService.kt:33-40 | a new service is consistent, silent, and reports 0 position and duration |
| `Playback.PlayIdempotent` | app/src/main/java/com/example/myapplication/service/MusicService.kt:65-72 | pressing play twice on a song is pressing it once |
| `Playback.PlayMakesCurrent` | app/src/main/java/com/example/myapplication/service/MusicService.kt:63-103 | after play the song's id is current and playing; same id keeps position and duration, another id starts at 0 with the new duration |
| `Playback.PauseResume` | app/src/main/java/com/example/myapplication/service/MusicService.kt:108-127 | pausing then resuming a playing service restores it |
| `Playback.ResumePause` | app/src/main/java/com/example/myapplication/service/MusicService.kt:108-127 | resuming then pausing a paused service restores it |
| `Playback.PauseResumeIdempotent` | app/src/main/java/com/example/myapplication/service/MusicService.kt:108-127 | pause and resume are idempotent |
| `Playback.CurrentSongStable` | app/src/main/java/com/example/myapplication/service/MusicService.kt:92-133 | pause, resume, seek and completion never change the current song |
| `Playback.SeekThenPosition` | app/src/main/java/com/example/myapplication/service/MusicService.kt:131-138 | a seek is read back by the position query, and 0 without a player |
| `Playback.ReplayAfterCompletion` | app/src/main/java/com/example/myapplication/service/MusicService.kt:65-95 | play after completion restarts the same player rather than a new one |
| `Playback.MusicService.constructor` | app/src/main/java/com/example/myapplication/service/MusicService.kt:33-40 | no player, no song, not playing |
| `Playback.MusicService.PlaySong` | app/src/main/java/com/example/myapplication/service/MusicService.kt:63-103 | the fields change as `AfterPlay` says and the invariant is kept |
| `Playback.MusicService.Pause` | app/src/main/java/com/example/myapplication/service/MusicService.kt:108-116 | the fields change as `AfterPause` says |
| `Playback.MusicService.Resume` | app/src/main/java/com/example/myapplication/service/MusicService.kt:121-127 | the fields change as `AfterResume` says |
| `Playback.MusicService.SeekTo` | app/src/main/java/com/example/myapplication/service/MusicService.kt:131-133 | the fields change as `AfterSeek` says |
| `Playback.MusicService.OnCompletion` | app/src/main/java/com/example/myapplication/service/MusicService.kt:92-95 | the fields change as `AfterCompletion` says |
| `Playback.MusicService.GetCurrentPosition` | app/src/main/java/com/example/myapplication/service/MusicService.kt:136-138 | the player's position, 0 without a player |
| `Playback.MusicService.GetDuration` | app/src/main/java/com/example/myapplication/service/MusicService.kt:141-143 | the player's duration, 0 without a player |
| `Downloads.DownloadFileName` | app/src/main/java/com/example/myapplication/ui/components/SearchSongDialog.kt:195-196 | "title - artist" with '/' made '-', then ".mp3": no '/', the exact length, each position of title and artist kept or replaced |
| `Downloads.CleanNamesKept` | app/src/main/java/com/example/myapplication/ui/screens/MusicPlayerScreen.kt:133-134 | names without '/' are used verbatim |
| `SongItem.FormatTime` | app/src/main/java/com/example/myapplication/ui/components/SongItem.kt:195-199 | for ms >= 0: five characters "MM:SS", ':' at index 2, MM = (ms/60000)%60 and SS = (ms/1000)%60 |
| `SongItem.FormatTimeWrapsHourly` | app/src/main/java/com/example/myapplication/ui/components/SongItem.kt:196-198 | an hour more shows the same text |
| `SongItem.FormatTimeSameText` | app/src/main/java/com/example/myapplication/ui/components/SongItem.kt:195-199 | two non-negative times show the same text exactly when they fall on the same second of the hour |
| `SongItem.FormatTimeNegative` | app/src/main/java/com/example/myapplication/ui/components/SongItem.kt:195-199 | a negative time shows "00:00" on whole hours of seconds and a minus sign otherwise |
| `SongItem.NegativeFields` | app/src/main/java/com/example/myapplication/ui/components/SongItem.kt:196-197 | truncation makes the fields of a negative time the negated fields of its magnitude |
| `SongItem.ArtistLabel` | app/src/main/java/com/example/myapplication/ui/components/SongItem.kt:90 | "Artiste inconnu" for a blank or "<unknown>" artist, the artist unchanged otherwise |
| `SongItem.ArtistLabelKnown` | app/src/main/java/com/example/myapplication/ui/components/SongItem.kt:90 | the label is never unknown itself; it is the placeholder exactly for unknown artists and an artist of that name |
| `SongItem.DurationText` | app/src/main/java/com/example/myapplication/ui/components/SongItem.kt:95-96 | shown exactly for a known positive duration, as its formatted time |
| `SongItem.ButtonAction` | app/src/main/java/com/example/myapplication/ui/components/SongItem.kt:108-116 | exactly one callback: pause when current and playing, resume when current and paused, play when not current |
| `SongItem.ButtonIcon` | app/src/main/java/com/example/myapplication/ui/components/SongItem.kt:122 | "⏸" exactly when current and playing, "▶" otherwise |
| `SongItem.SliderShown` | app/src/main/java/com/example/myapplication/ui/components/SongItem.kt:158 | never on a song that is not current, never while the total is not positive |
| `SongItem.IconMatchesAction` | app/src/main/java/com/example/myapplication/ui/components/SongItem.kt:108-122 | the icon shows pause exactly when the button pauses |
| `SongDetail.FormatTime` | app/src/main/java/com/example/myapplication/ui/screens/SongDetailScreen.kt:190-194 | the private copy agrees with the list row's `formatTime` on every input |
| `SongDetail.DisplayedDuration` | app/src/main/java/com/example/myapplication/ui/screens/SongDetailScreen.kt:137 | the song's duration when known, even 0; the player's total otherwise |
| `SongDetail.DurationLine` | app/src/main/java/com/example/myapplication/ui/screens/SongDetailScreen.kt:137-140 | shown exactly when the displayed duration is positive, as "Durée: " and its time |
| `SongDetail.ZeroDurationDoesNotFallBack` | app/src/main/java/com/example/myapplication/ui/screens/SongDetailScreen.kt:137-140 | a known 0 hides the line instead of falling back |
| `SongDetail.DurationAgreesWithRow` | app/src/main/java/com/example/myapplication/ui/screens/SongDetailScreen.kt:137-140 | where the row shows a duration the detail screen shows the same; an unknown duration may still be shown from the player |
| `SongDetail.PauseEnabled` | app/src/main/java/com/example/myapplication/ui/screens/SongDetailScreen.kt:150 | enabled only for the current song while it plays |
| `SongDetail.ResumeEnabled` | app/src/main/java/com/example/myapplication/ui/screens/SongDetailScreen.kt:151 | enabled only for the current song while it is paused |
| `SongDetail.EnablementAgreesWithRow` | app/src/main/java/com/example/myapplication/ui/screens/SongDetailScreen.kt:150-151 | Pause and Resume are never both enabled, both are off when not current, and each is on exactly when the row's button would fire it |
| `SongDetail.SliderShown` | app/src/main/java/com/example/myapplication/ui/screens/SongDetailScreen.kt:169 | never on a song that is not current, never while the total is not positive |
| `SongDetail.SliderAgreesWithRow` | app/src/main/java/com/example/myapplication/ui/screens/SongDetailScreen.kt:169 | the slider appears exactly when current with a positive total, as in the row |
| `SongDetail.DownloadRequest` | app/src/main/java/com/example/myapplication/ui/screens/SongDetailScreen.kt:154-155 | the song's uri and a file name with no '/' ending in ".mp3" |
| `SearchDialog.KeepResult` | app/src/main/java/com/example/myapplication/ui/components/SearchSongDialog.kt:243-250 | kept exactly with a non-blank preview and a non-zero id; names default to "Inconnu"; duration present exactly for a positive time |
| `SearchDialog.MapResults` | app/src/main/java/com/example/myapplication/ui/components/SearchSongDialog.kt:239-253 | succeeds exactly when every element is an object; then no more rows than elements, all playable |
| `SearchDialog.MapResultsAppend` | app/src/main/java/com/example/myapplication/ui/components/SearchSongDialog.kt:241-252 | rows of a concatenation are the concatenated rows |
| `SearchDialog.MapResultsFromItems` | app/src/main/java/com/example/myapplication/ui/components/SearchSongDialog.kt:241-252 | each row comes from an element, and rows keep the elements' order |
| `SearchDialog.MapResultsKeepsQualified` | app/src/main/java/com/example/myapplication/ui/components/SearchSongDialog.kt:249-250 | every qualifying element appears among the rows |
| `SearchDialog.MapResultsAbort` | app/src/main/java/com/example/myapplication/ui/components/SearchSongDialog.kt:243 | the first non-object aborts the search with its message, whatever follows |
| `SearchDialog.SearchOutcome` | app/src/main/java/com/example/myapplication/ui/components/SearchSongDialog.kt:233-253 | a code other than 200 fails with "HTTP code"; success needs code 200 and a results array, and yields playable rows |
| `SearchDialog.SearchItunes` | app/src/main/java/com/example/myapplication/ui/components/SearchSongDialog.kt:225-254 | the loop filling the result list computes `SearchOutcome` |
| `SearchDialog.ResultSong` | app/src/main/java/com/example/myapplication/ui/components/SearchSongDialog.kt:153-159 | the song of a row carries its id, names, preview url and duration |
| `SearchDialog.ResultSongDuration` | app/src/main/java/com/example/myapplication/ui/components/SearchSongDialog.kt:248-250 | a song from a result has a non-zero id and a positive duration or none |
| `SearchDialog.IsCurrent` | app/src/main/java/com/example/myapplication/ui/components/SearchSongDialog.kt:165 | current exactly when the current id is non-null and equal |
| `SearchDialog.PreviewClick` | app/src/main/java/com/example/myapplication/ui/components/SearchSongDialog.kt:170-176 | pause exactly when current and playing, otherwise toggle with the row's song |
| `SearchDialog.PreviewLabel` | app/src/main/java/com/example/myapplication/ui/components/SearchSongDialog.kt:166 | "⏸" exactly when current and playing, "▶" otherwise |
| `SearchDialog.PreviewLabelMatchesClick` | app/src/main/java/com/example/myapplication/ui/components/SearchSongDialog.kt:166-176 | the label shows pause exactly when the button pauses |
| `SearchDialog.ResultDownload` | app/src/main/java/com/example/myapplication/ui/components/SearchSongDialog.kt:195-196 | the preview url and a file name with no '/' |
| `SearchDialog.ErrorText` | app/src/main/java/com/example/myapplication/ui/components/SearchSongDialog.kt:105 | "Erreur de recherche: " followed by the exception's message, or "null" when it has none |
| `SearchDialog.SearchSongDialog.constructor` | app/src/main/java/com/example/myapplication/ui/components/SearchSongDialog.kt:53-56 | empty query, not loading, no error, no rows |
| `SearchDialog.SearchSongDialog.OnQueryChange` | app/src/main/java/com/example/myapplication/ui/components/SearchSongDialog.kt:78 | the field holds the typed text |
| `SearchDialog.SearchSongDialog.OnSearchClick` | app/src/main/java/com/example/myapplication/ui/components/SearchSongDialog.kt:95-110 | a blank query changes nothing; otherwise loading ends, success replaces the rows and clears the error, failure sets "Erreur de recherche: " + message and keeps the old rows |
| `Controls.PressRowButton` | app/src/main/java/com/example/myapplication/ui/MainActivity.kt:140-151 | the row button wired to the service keeps the service's invariant |
| `Controls.RowButtonToggles` | app/src/main/java/com/example/myapplication/ui/screens/MusicPlayerScreen.kt:116-124 | after a press the row's song is current, and it plays exactly when it was not current and playing before |
| `Controls.RowButtonTwice` | app/src/main/java/com/example/myapplication/ui/MainActivity.kt:144-151 | on the current song two presses restore the state |
| `Controls.RowIconShowsPlayback` | app/src/main/java/com/example/myapplication/ui/screens/MusicPlayerScreen.kt:116-122 | a row shows the pause glyph exactly when the service's player plays its song |
| `Controls.CurrentId` | app/src/main/java/com/example/myapplication/ui/screens/MusicPlayerScreen.kt:148 | `currentSong?.id` |
| `Controls.PressPreviewButton` | app/src/main/java/com/example/myapplication/ui/MainActivity.kt:162-165 | the preview button wired to the service keeps the invariant |
| `Controls.PreviewAgreesWithRow` | app/src/main/java/com/example/myapplication/ui/components/SearchSongDialog.kt:170-176 | the preview button acts as the row button on the result's song: with no resume branch, `playSong` on the current id resumes |

## Left out

- Compose rendering, theming, the cover bitmap, navigation (`selectedSong` set by a click or cleared by back), the "Ajouter" dialog toggle, and the empty-list message: layout, not logic.
- The 500 ms polling loop and `updateState`. The screens are modelled as seeing the service's state directly, so stale views between polls are not modelled.
- Platform input and output are given as parameters: MediaStore cursor rows, metadata retriever results, resource ids and package name, the durations `prepare()` reads, and the HTTP response. Permissions, service binding, notifications and foreground state, DownloadManager and its broadcast receiver, and toasts are not modelled.
- JSON text is modelled as already decoded. Absent keys are `None`. The coercions of `optString`/`optLong`/`optInt` on values of another type, or on JSON null, are not modelled.
- Null strings from the cursor (title, artist) and null exception messages are not modelled, except that a null message renders as "null".
- `Catalog.Library.LoadSongs`: a cursor that throws part-way is modelled by the rows read before the failure.
- `Catalog.Library.LoadSongs`: the demo list's own try/catch cannot fail and is not modelled.
- `Playback.MusicService.PlaySong`: a `prepare()` that throws, which would leave the released old player installed, is not modelled.
- `Playback.MusicService.PlaySong`: position advance during playback, and the player's own rewind to 0 when started after completion, are not modelled. The position is the last one sought.
- `SearchDialog.SearchSongDialog.OnSearchClick`: the coroutine is run to completion at the click. The intermediate state (loading shown, error cleared) and overlapping searches are not modelled.
- URL encoding of the query, the request URL, and the timeouts: network I/O.
- `SongItem.ArtistLabel`: case-insensitive comparison maps ASCII letters only. Java's `equalsIgnoreCase` also folds letters such as the Kelvin sign to "k", so a name spelt with them matches "<unknown>" in the code but not in the model.
- `Catalog.DeviceArtist`: uses the same ASCII-only comparison, so a metadata artist spelt "<unknown>" with such letters counts as a real name in the model but as a placeholder in the code.
- `KotlinText.ParseLong`: accepts ASCII digits only. On the JVM `toLongOrNull` also accepts other Unicode decimal digits (fullwidth "１２" reads as 12), so a stored id written that way is dropped by the model and kept by the code.
- `SongItem.FormatTime`: assumes a default locale whose digits are ASCII (as is `SongDetail.FormatTime`, and `KotlinText.Format02` beneath both). `String.format` writes the locale's digits, such as Arabic-Indic digits under an Arabic locale, where the model promises '0' to '9'.
- Rewind, forward, repeat and dismiss commands do not appear in the service's code and are not modelled.
