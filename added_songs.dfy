/** The "added_songs" preference of MainActivity: a JSON array of user-added
    track records. The JSON text is modelled as already decoded; a text that
    does not decode to an array is `Unparseable`. */
module AddedSongs {
  import opened Songs
  import opened KotlinText

  /** One element of the array. An `Object`'s field is `None` when the key is
      absent (for `durationMs`, also when it holds JSON null); any other JSON
      value makes `getJSONObject` throw. */
  datatype Entry =
    | Object(id: Option<Long>, title: Option<string>, artist: Option<string>, uri: Option<string>, durationMs: Option<Int32>)
    | NonObject

  /** The stored preference value. */
  datatype AddedStore =
    | Missing                     // key absent: getString returns null
    | Blank                       // a blank string
    | Unparseable                 // non-blank text that is not a JSON array
    | Entries(items: seq<Entry>)

  /** `obj.optLong("id", 0L)`. */
  function Key(e: Entry): Long
    requires e.Object?
  {
    e.id.GetOr(0)
  }

  /** The object written for a song that is not yet stored; `durationMs` is
      written only when the song has one. */
  function NewEntry(song: Song): (e: Entry)
    ensures e.Object? && Key(e) == song.id
    ensures e.title == Some(song.title) && e.artist == Some(song.artist) && e.uri == Some(song.uri)
    ensures e.durationMs == song.durationMs
  {
    Object(Some(song.id), Some(song.title), Some(song.artist), Some(song.uri), song.durationMs)
  }

  /** The in-place update of a stored object with the same id: title, artist and
      uri are overwritten, `durationMs` is put or removed, the id is kept. */
  function Overwrite(e: Entry, song: Song): (e': Entry)
    requires e.Object?
    ensures e'.Object? && e'.id == e.id
    ensures e'.title == Some(song.title) && e'.artist == Some(song.artist) && e'.uri == Some(song.uri)
    ensures e'.durationMs == song.durationMs
  {
    e.(title := Some(song.title), artist := Some(song.artist), uri := Some(song.uri), durationMs := song.durationMs)
  }

  predicate AllObjects(items: seq<Entry>) {
    forall i :: 0 <= i < |items| ==> items[i].Object?
  }

  /** The entries before index `k` are objects whose id differs from `id`. */
  predicate ClearBefore(items: seq<Entry>, id: Long, k: int)
    requires 0 <= k <= |items|
  {
    forall j :: 0 <= j < k ==> items[j].Object? && Key(items[j]) != id
  }

  /** How a forward scan looking for `id` ends: at the first object with that id,
      at the first element that is not an object (the scan throws), or at the end. */
  datatype Scan = Hit(index: nat) | Fault(at: nat) | NoHit

  function ScanFrom(items: seq<Entry>, id: Long, i: nat): (r: Scan)
    requires i <= |items|
    requires ClearBefore(items, id, i)
    ensures r.Hit? ==> i <= r.index < |items| && items[r.index].Object? && Key(items[r.index]) == id
                       && ClearBefore(items, id, r.index)
    ensures r.Fault? ==> i <= r.at < |items| && items[r.at].NonObject? && ClearBefore(items, id, r.at)
    ensures r.NoHit? ==> ClearBefore(items, id, |items|)
    decreases |items| - i
  {
    if i == |items| then NoHit
    else if items[i].NonObject? then Fault(i)
    else if Key(items[i]) == id then Hit(i)
    else ScanFrom(items, id, i + 1)
  }

  function ScanFor(items: seq<Entry>, id: Long): Scan {
    ScanFrom(items, id, 0)
  }

  /** The store after `persistAddedSong(song)`: overwrite the first entry with the
      same id in place, or append a new entry; a store that cannot be read or
      holds a non-object before the match is left as it was. */
  function AfterPersist(store: AddedStore, song: Song): (r: AddedStore)
    ensures store.Missing? || store.Blank? ==> r == Entries([NewEntry(song)])
    ensures store.Unparseable? ==> r == store
    ensures store.Entries? ==> r.Entries? && |store.items| <= |r.items| <= |store.items| + 1
    ensures store.Entries? && ScanFor(store.items, song.id).Fault? ==> r == store
  {
    match store
    case Missing => Entries([NewEntry(song)])
    case Blank => Entries([NewEntry(song)])
    case Unparseable => Unparseable
    case Entries(items) =>
      match ScanFor(items, song.id)
      case Hit(k) => Entries(items[k := Overwrite(items[k], song)])
      case NoHit => Entries(items + [NewEntry(song)])
      case Fault(_) => store
  }

  /** The entries whose id differs from `id`, in order. */
  function WithoutKey(items: seq<Entry>, id: Long): (r: seq<Entry>)
    requires AllObjects(items)
    ensures AllObjects(r) && |r| <= |items|
    ensures forall i :: 0 <= i < |r| ==> Key(r[i]) != id
  {
    if items == [] then []
    else if Key(items[|items| - 1]) != id then WithoutKey(items[..|items| - 1], id) + [items[|items| - 1]]
    else WithoutKey(items[..|items| - 1], id)
  }

  /** The store after `removePersistedSong(id)`: a missing key stays missing, an
      unreadable array stays as it was, otherwise every entry with that id goes. */
  function AfterRemove(store: AddedStore, id: Long): (r: AddedStore)
    ensures !store.Entries? ==> r == store
    ensures store.Entries? ==> r.Entries? && |r.items| <= |store.items|
    ensures store.Entries? && !AllObjects(store.items) ==> r == store
    ensures store.Entries? && AllObjects(store.items) ==>
      AllObjects(r.items) && forall i :: 0 <= i < |r.items| ==> Key(r.items[i]) != id
  {
    match store
    case Entries(items) => if AllObjects(items) then Entries(WithoutKey(items, id)) else store
    case _ => store
  }

  /** One record as `getPersistedAddedSongs` reads it: missing title and artist
      read "Inconnu"; a record with id 0 or a blank uri is skipped. */
  function DecodeEntry(e: Entry): (r: Option<Song>)
    requires e.Object?
    ensures r.Some? <==> Key(e) != 0 && !IsBlank(e.uri.GetOr(""))
    ensures r.Some? ==> r.value.id == Key(e) && r.value.durationMs == e.durationMs
    ensures r.Some? ==> r.value.uri == e.uri.value
    ensures r.Some? ==> (e.title.None? ==> r.value.title == "Inconnu") && (e.title.Some? ==> r.value.title == e.title.value)
    ensures r.Some? ==> (e.artist.None? ==> r.value.artist == "Inconnu") && (e.artist.Some? ==> r.value.artist == e.artist.value)
  {
    var id := Key(e);
    var uri := e.uri.GetOr("");
    if id != 0 && !IsBlank(uri) then
      Some(Song(id, e.title.GetOr("Inconnu"), e.artist.GetOr("Inconnu"), uri, e.durationMs))
    else None
  }

  /** The songs read from an array of objects, in array order. */
  function DecodeAll(items: seq<Entry>): (songs: seq<Song>)
    requires AllObjects(items)
    ensures |songs| <= |items|
  {
    if items == [] then []
    else
      var init := DecodeAll(items[..|items| - 1]);
      match DecodeEntry(items[|items| - 1])
      case Some(s) => init + [s]
      case None => init
  }

  /** The songs `getPersistedAddedSongs` returns: empty when the key is missing,
      when the text cannot be parsed or when some element is not an object. */
  function PersistedSongs(store: AddedStore): (songs: seq<Song>)
    ensures !store.Entries? ==> songs == []
    ensures store.Entries? && !AllObjects(store.items) ==> songs == []
    ensures store.Entries? ==> |songs| <= |store.items|
  {
    match store
    case Entries(items) => if AllObjects(items) then DecodeAll(items) else []
    case _ => []
  }

  // ---------------------------------------------------------------------------
  // Properties of persistAddedSong

  /** Encoding a song and decoding the record gives the song back, provided the
      song passes the reader's filter. */
  lemma NewEntryRoundTrip(song: Song)
    ensures DecodeEntry(NewEntry(song)) == if song.id != 0 && !IsBlank(song.uri) then Some(song) else None
  {
  }

  /** An overwritten record decodes to the song that overwrote it. */
  lemma OverwriteRoundTrip(e: Entry, song: Song)
    requires e.Object? && Key(e) == song.id
    ensures DecodeEntry(Overwrite(e, song)) == if song.id != 0 && !IsBlank(song.uri) then Some(song) else None
  {
  }

  /** When a record with the song's id exists, the first one is updated where it
      stands and every other entry is untouched; otherwise exactly one entry is
      appended at the end. */
  lemma PersistShape(items: seq<Entry>, song: Song)
    requires AllObjects(items)
    ensures AfterPersist(Entries(items), song).Entries?
    ensures var r := AfterPersist(Entries(items), song).items;
      if exists k :: 0 <= k < |items| && Key(items[k]) == song.id then
        exists k :: 0 <= k < |items| && Key(items[k]) == song.id && ClearBefore(items, song.id, k)
                    && |r| == |items| && r[k] == Overwrite(items[k], song)
                    && forall j :: 0 <= j < |items| && j != k ==> r[j] == items[j]
      else r == items + [NewEntry(song)]
  {
    match ScanFor(items, song.id)
    case Hit(k) =>
    case NoHit =>
    case Fault(at) =>
  }

  /** The number of objects whose id is `id`. */
  function CountKey(items: seq<Entry>, id: Long): nat {
    if items == [] then 0
    else CountKey(items[..|items| - 1], id) + (if items[|items| - 1].Object? && Key(items[|items| - 1]) == id then 1 else 0)
  }

  lemma {:induction false} CountKeyAppend(a: seq<Entry>, b: seq<Entry>, id: Long)
    ensures CountKey(a + b, id) == CountKey(a, id) + CountKey(b, id)
    decreases |b|
  {
    if b == [] {
      assert a + b == a;
    } else {
      assert (a + b)[..|a + b| - 1] == a + b[..|b| - 1];
      CountKeyAppend(a, b[..|b| - 1], id);
    }
  }

  lemma {:induction false} CountKeyZero(items: seq<Entry>, id: Long)
    requires ClearBefore(items, id, |items|)
    ensures CountKey(items, id) == 0
  {
    if items != [] {
      CountKeyZero(items[..|items| - 1], id);
    }
  }

  lemma CountKeyUpdate(items: seq<Entry>, k: nat, e: Entry, id: Long)
    requires k < |items|
    requires items[k].Object? && e.Object? && Key(items[k]) == Key(e)
    ensures CountKey(items[k := e], id) == CountKey(items, id)
  {
    var r := items[k := e];
    assert items == items[..k] + [items[k]] + items[k + 1..];
    assert r == items[..k] + [e] + items[k + 1..];
    CountKeyAppend(items[..k] + [items[k]], items[k + 1..], id);
    CountKeyAppend(items[..k], [items[k]], id);
    CountKeyAppend(items[..k] + [e], items[k + 1..], id);
    CountKeyAppend(items[..k], [e], id);
    assert CountKey([e], id) == CountKey([items[k]], id) by {
      assert [e][..0] == [] && [items[k]][..0] == [];
    }
  }

  /** An object at index `k` is counted under its own id. */
  lemma CountKeyAt(items: seq<Entry>, k: nat)
    requires k < |items| && items[k].Object?
    ensures CountKey(items, Key(items[k])) >= 1
  {
    assert items == items[..k] + [items[k]] + items[k + 1..];
    CountKeyAppend(items[..k] + [items[k]], items[k + 1..], Key(items[k]));
    CountKeyAppend(items[..k], [items[k]], Key(items[k]));
    assert [items[k]][..0] == [];
  }

  /** Persisting a song leaves exactly one record with its id when there was
      none, and never adds a second one when there was. */
  lemma PersistCount(items: seq<Entry>, song: Song)
    requires AllObjects(items)
    ensures CountKey(AfterPersist(Entries(items), song).items, song.id)
            == if CountKey(items, song.id) == 0 then 1 else CountKey(items, song.id)
  {
    match ScanFor(items, song.id)
    case Hit(k) =>
      CountKeyUpdate(items, k, Overwrite(items[k], song), song.id);
      CountKeyAt(items, k);
    case NoHit =>
      CountKeyZero(items, song.id);
      CountKeyAppend(items, [NewEntry(song)], song.id);
      assert [NewEntry(song)][..0] == [];
    case Fault(at) =>
  }

  /** Adding the same song twice leaves the store as adding it once. */
  lemma PersistIdempotent(store: AddedStore, song: Song)
    ensures AfterPersist(AfterPersist(store, song), song) == AfterPersist(store, song)
  {
    match store
    case Missing =>
      assert ScanFor([NewEntry(song)], song.id) == Hit(0);
    case Blank =>
      assert ScanFor([NewEntry(song)], song.id) == Hit(0);
    case Unparseable =>
    case Entries(items) =>
      match ScanFor(items, song.id)
      case Hit(k) =>
        var r := items[k := Overwrite(items[k], song)];
        ScanSameUntil(items, r, song.id, 0, k);
        assert r[k := Overwrite(r[k], song)] == r;
      case NoHit =>
        var r := items + [NewEntry(song)];
        ScanSameUntil(items, r, song.id, 0, |items|);
        assert r[|items| := Overwrite(r[|items|], song)] == r;
      case Fault(at) =>
  }

  /** Two arrays that agree before index `k` and hold, at `k`, objects with the
      searched id are scanned alike. */
  lemma {:induction false} ScanSameUntil(a: seq<Entry>, b: seq<Entry>, id: Long, i: nat, k: nat)
    requires i <= k <= |a| && k < |b|
    requires ClearBefore(a, id, i) && ClearBefore(b, id, i)
    requires forall j :: i <= j < k ==> a[j] == b[j]
    requires ClearBefore(a, id, k)
    requires b[k].Object? && Key(b[k]) == id
    ensures ScanFrom(b, id, i) == Hit(k)
    decreases k - i
  {
    if i < k {
      ScanSameUntil(a, b, id, i + 1, k);
    }
  }

  // ---------------------------------------------------------------------------
  // Properties of removePersistedSong

  /** Removing every record of `id` keeps the other records in their order. */
  lemma {:induction false} WithoutKeyAppend(a: seq<Entry>, b: seq<Entry>, id: Long)
    requires AllObjects(a) && AllObjects(b)
    ensures WithoutKey(a + b, id) == WithoutKey(a, id) + WithoutKey(b, id)
    decreases |b|
  {
    if b == [] {
      assert a + b == a;
    } else {
      assert (a + b)[..|a + b| - 1] == a + b[..|b| - 1];
      WithoutKeyAppend(a, b[..|b| - 1], id);
    }
  }

  /** An array without any record of `id` is left exactly as it is. */
  lemma {:induction false} WithoutKeyAbsent(items: seq<Entry>, id: Long)
    requires ClearBefore(items, id, |items|)
    ensures WithoutKey(items, id) == items
  {
    if items != [] {
      WithoutKeyAbsent(items[..|items| - 1], id);
    }
  }

  /** Records of other ids keep their number. */
  lemma {:induction false} WithoutKeyCount(items: seq<Entry>, id: Long, other: Long)
    requires AllObjects(items) && other != id
    ensures CountKey(WithoutKey(items, id), other) == CountKey(items, other)
  {
    if items != [] {
      var init := items[..|items| - 1];
      var last := items[|items| - 1];
      WithoutKeyCount(init, id, other);
      if Key(last) != id {
        CountKeyAppend(WithoutKey(init, id), [last], other);
        assert [last][..0] == [];
      }
    }
  }

  /** Whatever the store held, the reader returns no song with `id` after
      removal; when the result is an array of objects, no record has `id`.
      (A store holding a non-object is left as it was, record included, but
      such a store reads as the empty list.) */
  lemma RemoveLeavesNone(store: AddedStore, id: Long)
    ensures AfterRemove(store, id).Entries? && AllObjects(AfterRemove(store, id).items)
            ==> CountKey(AfterRemove(store, id).items, id) == 0
    ensures !HasId(PersistedSongs(AfterRemove(store, id)), id)
  {
    var r := AfterRemove(store, id);
    if r.Entries? && AllObjects(r.items) {
      if store.Entries? && AllObjects(store.items) {
        CountKeyZero(r.items, id);
        DecodeAllKeys(r.items, id);
      }
    }
  }

  // ---------------------------------------------------------------------------
  // Properties of getPersistedAddedSongs

  /** Reading keeps array order. */
  lemma {:induction false} DecodeAllAppend(a: seq<Entry>, b: seq<Entry>)
    requires AllObjects(a) && AllObjects(b)
    ensures DecodeAll(a + b) == DecodeAll(a) + DecodeAll(b)
    decreases |b|
  {
    if b == [] {
      assert a + b == a;
    } else {
      assert (a + b)[..|a + b| - 1] == a + b[..|b| - 1];
      DecodeAllAppend(a, b[..|b| - 1]);
    }
  }

  /** Every song read has a non-zero id, a non-blank uri, and comes from an
      object carrying its id. */
  lemma {:induction false} DecodeAllFiltered(items: seq<Entry>)
    requires AllObjects(items)
    ensures forall s :: s in DecodeAll(items) ==> s.id != 0 && !IsBlank(s.uri)
  {
    if items != [] {
      DecodeAllFiltered(items[..|items| - 1]);
    }
  }

  /** A song of identity `id` is read only if some object carries that id. */
  lemma {:induction false} DecodeAllKeys(items: seq<Entry>, id: Long)
    requires AllObjects(items)
    requires CountKey(items, id) == 0
    ensures !HasId(DecodeAll(items), id)
  {
    if items != [] {
      DecodeAllKeys(items[..|items| - 1], id);
    }
  }

  /** Persisting a song that passes the reader's filter into a readable store
      makes the reader return it. */
  lemma PersistThenRead(store: AddedStore, song: Song)
    requires song.id != 0 && !IsBlank(song.uri)
    requires store.Entries? ==> AllObjects(store.items)
    requires !store.Unparseable?
    ensures song in PersistedSongs(AfterPersist(store, song))
  {
    NewEntryRoundTrip(song);
    match store
    case Missing =>
      assert DecodeAll([NewEntry(song)]) == [song] by { assert [NewEntry(song)][..0] == []; }
    case Blank =>
      assert DecodeAll([NewEntry(song)]) == [song] by { assert [NewEntry(song)][..0] == []; }
    case Entries(items) =>
      match ScanFor(items, song.id)
      case Hit(k) =>
        OverwriteThenRead(items, k, song);
      case NoHit =>
        DecodeAllAppend(items, [NewEntry(song)]);
        assert DecodeAll([NewEntry(song)]) == [song] by { assert [NewEntry(song)][..0] == []; }
  }

  /** Overwriting the record at `k` with a song that passes the reader's filter
      makes the reader return that song. */
  lemma OverwriteThenRead(items: seq<Entry>, k: nat, song: Song)
    requires AllObjects(items) && k < |items| && Key(items[k]) == song.id
    requires song.id != 0 && !IsBlank(song.uri)
    ensures song in DecodeAll(items[k := Overwrite(items[k], song)])
  {
    var r := items[k := Overwrite(items[k], song)];
    OverwriteRoundTrip(items[k], song);
    assert r == items[..k] + [r[k]] + items[k + 1..];
    DecodeAllAppend(items[..k] + [r[k]], items[k + 1..]);
    DecodeAllAppend(items[..k], [r[k]]);
    assert DecodeAll([r[k]]) == [song] by { assert [r[k]][..0] == []; }
  }

  /** At most one record per id, as every store written only by this code is. */
  ghost predicate UniqueKeys(store: AddedStore) {
    store.Entries? ==> AllObjects(store.items) && forall id: Long :: CountKey(store.items, id) <= 1
  }

  /** Persisting keeps one record per id. */
  lemma PersistKeepsUnique(store: AddedStore, song: Song)
    requires UniqueKeys(store)
    ensures UniqueKeys(AfterPersist(store, song))
  {
    var r := AfterPersist(store, song);
    match store
    case Unparseable =>
    case Missing =>
      forall id: Long ensures CountKey(r.items, id) <= 1 { assert r.items[..0] == []; }
    case Blank =>
      forall id: Long ensures CountKey(r.items, id) <= 1 { assert r.items[..0] == []; }
    case Entries(items) =>
      PersistShape(items, song);
      PersistCount(items, song);
      forall id: Long ensures CountKey(r.items, id) <= 1 {
        if id != song.id {
          match ScanFor(items, song.id)
          case Hit(k) =>
            CountKeyUpdate(items, k, Overwrite(items[k], song), id);
          case NoHit =>
            CountKeyAppend(items, [NewEntry(song)], id);
            assert [NewEntry(song)][..0] == [];
        }
      }
  }

  /** Removing keeps one record per id. */
  lemma RemoveKeepsUnique(store: AddedStore, id: Long)
    requires UniqueKeys(store)
    ensures UniqueKeys(AfterRemove(store, id))
  {
    if store.Entries? {
      forall other: Long ensures CountKey(AfterRemove(store, id).items, other) <= 1 {
        if other == id {
          CountKeyZero(AfterRemove(store, id).items, id);
        } else {
          WithoutKeyCount(store.items, id, other);
        }
      }
    }
  }

  /** A store with one record per id is read as songs with distinct ids. */
  lemma {:induction false} DecodeUnique(items: seq<Entry>)
    requires AllObjects(items)
    requires forall id: Long :: CountKey(items, id) <= 1
    ensures UniqueIds(DecodeAll(items))
  {
    if items != [] {
      var init := items[..|items| - 1];
      var last := items[|items| - 1];
      forall id: Long ensures CountKey(init, id) <= 1 {
        assert CountKey(items, id) == CountKey(init, id) + (if Key(last) == id then 1 else 0);
      }
      DecodeUnique(init);
      if DecodeEntry(last).Some? {
        assert CountKey(init, Key(last)) == 0 by {
          assert CountKey(items, Key(last)) == CountKey(init, Key(last)) + 1;
        }
        DecodeAllKeys(init, Key(last));
      }
    }
  }
}
