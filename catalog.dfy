/** The library catalog of MainActivity: the in-memory song list, the song
    opened in the detail screen, and the two persisted adjustments (deleted ids
    and user-added songs). */
module Catalog {
  import opened KotlinText
  import opened Songs
  import opened AddedSongs

  /** `MediaStore.Audio.Media.EXTERNAL_CONTENT_URI`. */
  const ExternalContentUri: string := "content://media/external/audio/media"

  /** What `MediaMetadataRetriever` reports for a file: the artist and album
      artist tags (null when absent). */
  datatype Metadata = Metadata(artist: Option<string>, albumArtist: Option<string>)

  /** One row of the MediaStore query, with the metadata of its file (`None`
      when the retriever threw). */
  datatype DeviceRow = DeviceRow(id: Long, title: string, artist: string, duration: Int32, metadata: Option<Metadata>)

  /** The generated resource ids `R.raw.song1` .. `R.raw.song5`. */
  datatype RawIds = RawIds(song1: int, song2: int, song3: int, song4: int, song5: int)

  function ResourceUri(packageName: string, rawId: int): string {
    "android.resource://" + packageName + "/" + IntToString(rawId)
  }

  /** Bundled demo song number `k`: id 100k, title "Demo Song k", artist
      "SoundHelix", no known duration. */
  function DemoSong(k: nat, uri: string): (s: Song)
    requires 1 <= k <= 5
    ensures s.id == 1000 + k && s.durationMs == None && s.artist == "SoundHelix"
  {
    Song(1000 + k, "Demo Song " + IntToString(k), "SoundHelix", uri, None)
  }

  /** The five bundled demo songs. */
  function DemoSongs(packageName: string, raw: RawIds): (demo: seq<Song>)
    ensures |demo| == 5
  {
    [ DemoSong(1, ResourceUri(packageName, raw.song1)),
      DemoSong(2, ResourceUri(packageName, raw.song2)),
      DemoSong(3, ResourceUri(packageName, raw.song3)),
      DemoSong(4, ResourceUri(packageName, raw.song4)),
      DemoSong(5, ResourceUri(packageName, raw.song5)) ]
  }

  /** The demo songs carry the ids 1001 to 1005 in order, so they are
      distinct, and none has a known duration. */
  lemma DemoSongsShape(packageName: string, raw: RawIds)
    ensures var demo := DemoSongs(packageName, raw);
      UniqueIds(demo)
      && (forall i :: 0 <= i < |demo| ==> demo[i].id == 1001 + i && demo[i].durationMs == None && demo[i].artist == "SoundHelix")
  {
    var demo := DemoSongs(packageName, raw);
    forall i | 0 <= i < |demo|
      ensures demo[i].id == 1001 + i && demo[i].durationMs == None && demo[i].artist == "SoundHelix"
    {
    }
  }

  /** The metadata artist: the artist tag, or the album artist when that is null. */
  function MetaArtist(row: DeviceRow): (artist: Option<string>)
    ensures row.metadata.None? ==> artist.None?
    ensures row.metadata.Some? && row.metadata.value.artist.Some? ==> artist == row.metadata.value.artist
    ensures row.metadata.Some? && row.metadata.value.artist.None? ==> artist == row.metadata.value.albumArtist
  {
    match row.metadata
    case None => None
    case Some(m) => if m.artist.Some? then m.artist else m.albumArtist
  }

  /** The artist shown for a device song: the metadata artist replaces the
      index's artist exactly when it is a real name. */
  function DeviceArtist(row: DeviceRow): (artist: string)
    ensures MetaArtist(row).Some? && !IsUnknownArtist(MetaArtist(row).value) ==> artist == MetaArtist(row).value
    ensures MetaArtist(row).None? || IsUnknownArtist(MetaArtist(row).value) ==> artist == row.artist
  {
    var meta := MetaArtist(row);
    if meta.Some? && !IsUnknownArtist(meta.value) then meta.value else row.artist
  }

  /** The content uri of a MediaStore row: the id appended to the collection uri. */
  function ContentUri(id: Long): string {
    ExternalContentUri + "/" + IntToString(id)
  }

  /** The song of one MediaStore row. */
  function DeviceSong(row: DeviceRow): (s: Song)
    ensures s.id == row.id && s.title == row.title && s.durationMs == Some(row.duration)
    ensures s.artist == DeviceArtist(row)
    ensures s.uri == ExternalContentUri + "/" + IntToString(row.id)
  {
    Song(row.id, row.title, DeviceArtist(row), ContentUri(row.id), Some(row.duration))
  }

  function DeviceSongs(rows: seq<DeviceRow>): (songs: seq<Song>)
    ensures |songs| == |rows| && forall i :: 0 <= i < |rows| ==> songs[i] == DeviceSong(rows[i])
  {
    if rows == [] then [] else DeviceSongs(rows[..|rows| - 1]) + [DeviceSong(rows[|rows| - 1])]
  }

  /** One more cursor row adds its song at the end. */
  lemma DeviceSongsStep(rows: seq<DeviceRow>, i: nat)
    requires i < |rows|
    ensures DeviceSongs(rows[..i + 1]) == DeviceSongs(rows[..i]) + [DeviceSong(rows[i])]
  {
    assert rows[..i + 1][..i] == rows[..i];
  }

  /** `songs` without the songs whose id is in `ids` (`removeAll`). */
  function WithoutIds(songs: seq<Song>, ids: set<Long>): (r: seq<Song>)
    ensures |r| <= |songs|
    ensures forall s :: s in r <==> s in songs && s.id !in ids
  {
    if songs == [] then []
    else
      var init := WithoutIds(songs[..|songs| - 1], ids);
      var last := songs[|songs| - 1];
      assert songs == songs[..|songs| - 1] + [last];
      if last.id in ids then init else init + [last]
  }

  /** The persisted songs that are neither deleted nor already present, in order. */
  function FreshPersisted(persisted: seq<Song>, deleted: set<Long>, present: seq<Song>): (r: seq<Song>)
    ensures |r| <= |persisted|
    ensures forall s :: s in r <==> s in persisted && s.id !in deleted && !HasId(present, s.id)
  {
    if persisted == [] then []
    else
      var init := FreshPersisted(persisted[..|persisted| - 1], deleted, present);
      var last := persisted[|persisted| - 1];
      assert persisted == persisted[..|persisted| - 1] + [last];
      if last.id !in deleted && !HasId(present, last.id) then init + [last] else init
  }

  /** The filter keeps array order: it distributes over concatenation. */
  lemma {:induction false} FreshPersistedAppend(a: seq<Song>, b: seq<Song>, deleted: set<Long>, present: seq<Song>)
    ensures FreshPersisted(a + b, deleted, present) == FreshPersisted(a, deleted, present) + FreshPersisted(b, deleted, present)
    decreases |b|
  {
    if b == [] {
      assert a + b == a;
    } else {
      var init := b[..|b| - 1];
      var last := b[|b| - 1];
      assert (a + b)[..|a + b| - 1] == a + init;
      assert (a + b)[|a + b| - 1] == last;
      FreshPersistedAppend(a, init, deleted, present);
    }
  }

  /** The list `loadSongs` ends with: the loaded songs without deleted ids, then
      the persisted songs that are neither deleted nor already loaded. */
  function Merge(loaded: seq<Song>, deleted: set<Long>, persisted: seq<Song>): (merged: seq<Song>)
    ensures |WithoutIds(loaded, deleted)| <= |merged| <= |loaded| + |persisted|
    ensures merged[..|WithoutIds(loaded, deleted)|] == WithoutIds(loaded, deleted)
  {
    var kept := WithoutIds(loaded, deleted);
    kept + FreshPersisted(persisted, deleted, kept)
  }

  // ---------------------------------------------------------------------------
  // Properties of the merge

  /** No song of the merged catalog has a deleted id, so a deleted song never
      comes back on reload, whatever the device index, demo set or store holds. */
  lemma MergeExcludesDeleted(loaded: seq<Song>, deleted: set<Long>, persisted: seq<Song>, id: Long)
    requires id in deleted
    ensures !HasId(Merge(loaded, deleted, persisted), id)
  {
  }

  /** Each appended persisted song has an id that no kept loaded song has. */
  lemma MergeAppendsFresh(loaded: seq<Song>, deleted: set<Long>, persisted: seq<Song>, i: nat)
    requires var kept := WithoutIds(loaded, deleted); |kept| <= i < |Merge(loaded, deleted, persisted)|
    ensures var kept := WithoutIds(loaded, deleted);
      !HasId(kept, Merge(loaded, deleted, persisted)[i].id) && Merge(loaded, deleted, persisted)[i] in persisted
  {
    var kept := WithoutIds(loaded, deleted);
    var m := Merge(loaded, deleted, persisted);
    assert m[i] == FreshPersisted(persisted, deleted, kept)[i - |kept|];
  }

  /** Membership in the merged catalog, both ways. */
  lemma MergeMembers(loaded: seq<Song>, deleted: set<Long>, persisted: seq<Song>, s: Song)
    ensures s in Merge(loaded, deleted, persisted) <==>
      (s in loaded && s.id !in deleted) ||
      (s in persisted && s.id !in deleted && !HasId(WithoutIds(loaded, deleted), s.id))
  {
  }

  /** Removing ids distributes over concatenation: demo songs stay before
      device songs. */
  lemma {:induction false} WithoutIdsAppend(a: seq<Song>, b: seq<Song>, ids: set<Long>)
    ensures WithoutIds(a + b, ids) == WithoutIds(a, ids) + WithoutIds(b, ids)
    decreases |b|
  {
    if b == [] {
      assert a + b == a;
    } else {
      assert (a + b)[..|a + b| - 1] == a + b[..|b| - 1];
      WithoutIdsAppend(a, b[..|b| - 1], ids);
    }
  }

  /** Removing ids no song carries changes nothing. */
  lemma {:induction false} WithoutIdsNone(songs: seq<Song>, ids: set<Long>)
    requires forall i :: 0 <= i < |songs| ==> songs[i].id !in ids
    ensures WithoutIds(songs, ids) == songs
  {
    if songs != [] {
      WithoutIdsNone(songs[..|songs| - 1], ids);
      assert songs == songs[..|songs| - 1] + [songs[|songs| - 1]];
    }
  }

  /** Removing songs keeps distinct ids distinct. */
  lemma {:induction false} WithoutIdsUnique(songs: seq<Song>, ids: set<Long>)
    requires UniqueIds(songs)
    ensures UniqueIds(WithoutIds(songs, ids))
  {
    if songs != [] {
      var init := songs[..|songs| - 1];
      var last := songs[|songs| - 1];
      WithoutIdsUnique(init, ids);
      var r := WithoutIds(init, ids);
      if last.id !in ids {
        forall i | 0 <= i < |r| ensures r[i].id != last.id {
          assert r[i] in init;
          var k :| 0 <= k < |init| && init[k] == r[i];
        }
      }
    }
  }

  /** Filtering persisted songs keeps distinct ids distinct. */
  lemma {:induction false} FreshPersistedUnique(persisted: seq<Song>, deleted: set<Long>, present: seq<Song>)
    requires UniqueIds(persisted)
    ensures UniqueIds(FreshPersisted(persisted, deleted, present))
  {
    if persisted != [] {
      var init := persisted[..|persisted| - 1];
      var last := persisted[|persisted| - 1];
      FreshPersistedUnique(init, deleted, present);
      var r := FreshPersisted(init, deleted, present);
      if last.id !in deleted && !HasId(present, last.id) {
        forall i | 0 <= i < |r| ensures r[i].id != last.id {
          assert r[i] in init;
          var k :| 0 <= k < |init| && init[k] == r[i];
        }
      }
    }
  }

  /** The merged catalog holds at most one song per id when the loaded songs do
      and the persisted songs do. The code itself does not check the loaded
      songs: a device song whose MediaStore id is 1001..1005 shares its id with
      a demo song. */
  lemma MergeUnique(loaded: seq<Song>, deleted: set<Long>, persisted: seq<Song>)
    requires UniqueIds(loaded) && UniqueIds(persisted)
    ensures UniqueIds(Merge(loaded, deleted, persisted))
  {
    var kept := WithoutIds(loaded, deleted);
    var appended := FreshPersisted(persisted, deleted, kept);
    WithoutIdsUnique(loaded, deleted);
    FreshPersistedUnique(persisted, deleted, kept);
    var m := kept + appended;
    forall i, j | 0 <= i < j < |m| ensures m[i].id != m[j].id {
      if i < |kept| && j >= |kept| {
        assert m[j] in appended;
      }
    }
  }

  // ---------------------------------------------------------------------------
  // The deleted-id preference

  /** The ids read from the stored strings: those that `toLongOrNull` accepts. */
  function ParsedIds(stored: set<string>): (ids: set<Long>)
    ensures forall id :: id in ids <==> exists s :: s in stored && ParseLong(s) == Some(id)
  {
    set s | s in stored && ParseLong(s).Some? :: ParseLong(s).value
  }

  /** Storing an id's decimal form adds exactly that id to the ids read back:
      marking is set insertion, removes nothing, and marking twice is marking
      once. */
  lemma MarkedIdParses(stored: set<string>, id: Long)
    ensures ParsedIds(stored + {IntToString(id)}) == ParsedIds(stored) + {id}
    ensures ParsedIds(stored + {IntToString(id)} + {IntToString(id)}) == ParsedIds(stored + {IntToString(id)})
  {
    LongRoundTrip(id);
    assert IntToString(id) in stored + {IntToString(id)};
    assert stored + {IntToString(id)} + {IntToString(id)} == stored + {IntToString(id)};
  }

  /** A stored string that is not a decimal `Long` contributes nothing. */
  lemma UnparseableIgnored(stored: set<string>, junk: string)
    requires ParseLong(junk).None?
    ensures ParsedIds(stored + {junk}) == ParsedIds(stored)
  {
    assert forall s :: s in stored + {junk} && ParseLong(s).Some? ==> s in stored;
  }

  // ---------------------------------------------------------------------------
  // The activity's catalog state

  class Library {
    /** `songsList`: the catalog shown to the user. */
    var songsList: seq<Song>
    /** `selectedSong`: the song whose detail screen is open. */
    var selectedSong: Option<Song>
    /** The "deleted_ids" preference: a string set. */
    var deletedIds: set<string>
    /** The "added_songs" preference. */
    var addedSongs: AddedStore

    /** A fresh activity over the preferences found on the device. */
    constructor(deletedIds: set<string>, addedSongs: AddedStore)
      ensures songsList == [] && selectedSong == None
      ensures this.deletedIds == deletedIds && this.addedSongs == addedSongs
    {
      songsList := [];
      selectedSong := None;
      this.deletedIds := deletedIds;
      this.addedSongs := addedSongs;
    }

    /** `getDeletedIds`: the stored strings that parse as a `Long`. */
    function DeletedIds(): (ids: set<Long>)
      reads this`deletedIds
      ensures forall id :: id in ids <==> exists s :: s in deletedIds && ParseLong(s) == Some(id)
    {
      ParsedIds(deletedIds)
    }

    /** `markDeleted`: add the id's decimal form to the stored set. */
    method MarkDeleted(id: Long)
      modifies this`deletedIds
      ensures deletedIds == old(deletedIds) + {IntToString(id)}
      ensures DeletedIds() == old(DeletedIds()) + {id}
    {
      MarkedIdParses(deletedIds, id);
      deletedIds := deletedIds + {IntToString(id)};
    }

    /** `getPersistedAddedSongs`. */
    method GetPersistedAddedSongs() returns (list: seq<Song>)
      ensures list == PersistedSongs(addedSongs)
    {
      if !addedSongs.Entries? {
        // a missing key returns the empty list; a text that is not an array throws
        return [];
      }
      var arr := addedSongs.items;
      list := [];
      var i := 0;
      while i < |arr|
        invariant 0 <= i <= |arr|
        invariant AllObjects(arr[..i])
        invariant list == DecodeAll(arr[..i])
      {
        if arr[i].NonObject? {
          // getJSONObject throws; the catch returns the empty list
          return [];
        }
        var obj := arr[i];
        var id := obj.id.GetOr(0);
        var title := obj.title.GetOr("Inconnu");
        var artist := obj.artist.GetOr("Inconnu");
        var uriStr := obj.uri.GetOr("");
        var duration := obj.durationMs;
        if id != 0 && !IsBlank(uriStr) {
          list := list + [Song(id, title, artist, uriStr, duration)];
        }
        assert arr[..i + 1][..i] == arr[..i];
        i := i + 1;
      }
      assert arr[..i] == arr;
    }

    /** `persistAddedSong`. */
    method PersistAddedSong(song: Song)
      modifies this`addedSongs
      ensures addedSongs == AfterPersist(old(addedSongs), song)
    {
      var arr: seq<Entry>;
      match addedSongs {
        case Missing => arr := [];
        case Blank => arr := [];
        case Unparseable => return;  // the parse throws; the catch leaves the store
        case Entries(items) => arr := items;
      }
      ghost var orig := arr;
      var replaced := false;
      var i := 0;
      while i < |arr|
        invariant 0 <= i <= |arr| && arr == orig && !replaced
        invariant ClearBefore(orig, song.id, i)
        invariant ScanFrom(orig, song.id, i) == ScanFor(orig, song.id)
      {
        if arr[i].NonObject? {
          return;  // getJSONObject throws; the catch leaves the store
        }
        var obj := arr[i];
        if obj.id.GetOr(0) == song.id {
          obj := obj.(title := Some(song.title));
          obj := obj.(artist := Some(song.artist));
          obj := obj.(uri := Some(song.uri));
          if song.durationMs.Some? {
            obj := obj.(durationMs := song.durationMs);
          } else {
            obj := obj.(durationMs := None);
          }
          arr := arr[i := obj];
          replaced := true;
          break;
        }
        i := i + 1;
      }
      if !replaced {
        var obj := Object(Some(song.id), Some(song.title), Some(song.artist), Some(song.uri), None);
        if song.durationMs.Some? {
          obj := obj.(durationMs := song.durationMs);
        }
        arr := arr + [obj];
      }
      addedSongs := Entries(arr);
    }

    /** `removePersistedSong`. */
    method RemovePersistedSong(id: Long)
      modifies this`addedSongs
      ensures addedSongs == AfterRemove(old(addedSongs), id)
    {
      if addedSongs.Missing? {
        return;
      }
      if !addedSongs.Entries? {
        return;  // the parse throws; the catch leaves the store
      }
      var arr := addedSongs.items;
      var newArr: seq<Entry> := [];
      var i := 0;
      while i < |arr|
        invariant 0 <= i <= |arr|
        invariant AllObjects(arr[..i])
        invariant newArr == WithoutKey(arr[..i], id)
      {
        if arr[i].NonObject? {
          return;  // getJSONObject throws; the catch leaves the store
        }
        var obj := arr[i];
        if obj.id.GetOr(0) != id {
          newArr := newArr + [obj];
        }
        assert arr[..i + 1][..i] == arr[..i];
        i := i + 1;
      }
      assert arr[..i] == arr;
      addedSongs := Entries(newArr);
    }

    /** `addExternalSong`: append and persist a song whose id is not yet listed;
        a song with a listed id changes nothing. */
    method AddExternalSong(song: Song)
      modifies this
      ensures HasId(old(songsList), song.id) ==> songsList == old(songsList) && addedSongs == old(addedSongs)
      ensures !HasId(old(songsList), song.id) ==>
        songsList == old(songsList) + [song] && addedSongs == AfterPersist(old(addedSongs), song)
      ensures deletedIds == old(deletedIds) && selectedSong == old(selectedSong)
      ensures UniqueIds(old(songsList)) ==> UniqueIds(songsList)
    {
      if !HasId(songsList, song.id) {
        songsList := songsList + [song];
        PersistAddedSong(song);
      }
    }

    /** `deleteSong`: remove the id from the list and the added store, record it
        as deleted, and close its detail screen. */
    method DeleteSong(song: Song)
      modifies this
      ensures songsList == WithoutIds(old(songsList), {song.id})
      ensures deletedIds == old(deletedIds) + {IntToString(song.id)}
      ensures addedSongs == AfterRemove(old(addedSongs), song.id)
      ensures selectedSong == if SameId(old(selectedSong), song.id) then None else old(selectedSong)
      ensures !HasId(songsList, song.id)
      ensures song.id in DeletedIds() && DeletedIds() == old(DeletedIds()) + {song.id}
      ensures !HasId(PersistedSongs(addedSongs), song.id)
    {
      songsList := WithoutIds(songsList, {song.id});
      assert !HasId(songsList, song.id);
      MarkDeleted(song.id);
      ghost var stored := addedSongs;
      RemovePersistedSong(song.id);
      RemoveLeavesNone(stored, song.id);
      if SameId(selectedSong, song.id) {
        selectedSong := None;
      }
    }

    /** `loadSongs`, with the device index and the file metadata given as rows:
        demo songs, then device songs, then the persisted adjustments. */
    method LoadSongs(packageName: string, raw: RawIds, rows: seq<DeviceRow>)
      modifies this`songsList
      ensures songsList == Merge(DemoSongs(packageName, raw) + DeviceSongs(rows), DeletedIds(), PersistedSongs(addedSongs))
    {
      songsList := DemoSongs(packageName, raw);
      AddDeviceSongs(rows);
      MergeAdjustments();
    }

    /** The cursor loop of `loadSongs`: one song per row, in row order. */
    method AddDeviceSongs(rows: seq<DeviceRow>)
      modifies this`songsList
      ensures songsList == old(songsList) + DeviceSongs(rows)
    {
      var i := 0;
      while i < |rows|
        invariant 0 <= i <= |rows|
        invariant songsList == old(songsList) + DeviceSongs(rows[..i])
      {
        var row := rows[i];
        var artist := DeviceArtist(row);
        var song := Song(row.id, row.title, artist, ContentUri(row.id), Some(row.duration));
        DeviceSongsStep(rows, i);
        assert old(songsList) + DeviceSongs(rows[..i + 1]) == songsList + [song];
        songsList := songsList + [song];
        i := i + 1;
      }
      assert rows[..i] == rows;
    }

    /** The end of `loadSongs`: drop the deleted ids, then append the persisted
        songs that are neither deleted nor already listed. */
    method MergeAdjustments()
      modifies this`songsList
      ensures songsList == Merge(old(songsList), DeletedIds(), PersistedSongs(addedSongs))
    {
      var deleted := DeletedIds();
      if deleted != {} {
        songsList := WithoutIds(songsList, deleted);
      } else {
        WithoutIdsNone(songsList, deleted);
      }
      var persisted := GetPersistedAddedSongs();
      if persisted != [] {
        var filtered := FreshPersisted(persisted, deleted, songsList);
        songsList := songsList + filtered;
      } else {
        assert FreshPersisted(persisted, deleted, songsList) == [];
      }
    }
  }
}
