/** The online search dialog (ui/components/SearchSongDialog.kt): turning the
    catalogue service's answer into result rows, the search button, and the
    decisions of each result row. */
module SearchDialog {
  import opened KotlinText
  import opened Songs
  import Downloads

  /** One element of the answer's "results" array. For an object, each field
      is what `optString`/`optLong`/`optInt` would read when present, `None`
      when absent; any other element makes `getJSONObject` throw, with the
      given message. */
  datatype ApiEntry =
    | ApiObject(previewUrl: Option<string>, trackId: Option<Long>, trackName: Option<string>,
                artistName: Option<string>, trackTimeMillis: Option<Int32>)
    | ApiNonObject(message: Option<string>)

  /** The body read from a successful connection: either a JSON object with a
      "results" array, or text on which `JSONObject(...)` or
      `getJSONArray("results")` throws, with the given message. */
  datatype Body = Results(items: seq<ApiEntry>) | Malformed(message: Option<string>)

  /** What the connection yields: an exception while connecting or reading, or
      a response code with its body. */
  datatype Response = NetworkFailure(message: Option<string>) | Answer(code: int, body: Body)

  /** `SearchResult`: one playable result row. */
  datatype SearchResult = SearchResult(id: Long, title: string, artist: string, previewUrl: string, durationMs: Option<Int32>)

  /** The row built from one object, or `None` when it is skipped. */
  function KeepResult(e: ApiEntry): (r: Option<SearchResult>)
    requires e.ApiObject?
    ensures r.Some? <==> !IsBlank(e.previewUrl.GetOr("")) && e.trackId.GetOr(0) != 0
    ensures r.Some? ==> r.value.id == e.trackId.value && r.value.previewUrl == e.previewUrl.value
    ensures r.Some? ==> r.value.title == e.trackName.GetOr("Inconnu") && r.value.artist == e.artistName.GetOr("Inconnu")
    ensures r.Some? ==> (r.value.durationMs.Some? <==> e.trackTimeMillis.GetOr(0) > 0)
    ensures r.Some? && r.value.durationMs.Some? ==> r.value.durationMs.value == e.trackTimeMillis.value
  {
    var preview := e.previewUrl.GetOr("");
    var trackId := e.trackId.GetOr(0);
    var timeMs := e.trackTimeMillis.GetOr(0);
    if !IsBlank(preview) && trackId != 0 then
      Some(SearchResult(trackId, e.trackName.GetOr("Inconnu"), e.artistName.GetOr("Inconnu"), preview,
                        if timeMs > 0 then Some(timeMs) else None))
    else None
  }

  /** A row that can be listed: a non-blank preview and a non-zero id. */
  predicate Playable(r: SearchResult) {
    !IsBlank(r.previewUrl) && r.id != 0
  }

  /** The rows built from the whole array, in order; the first element that
      is not an object aborts with its message. */
  function MapResults(items: seq<ApiEntry>): (r: Result<seq<SearchResult>, Option<string>>)
    ensures r.Ok? ==> |r.value| <= |items|
    ensures r.Ok? ==> forall i :: 0 <= i < |r.value| ==> Playable(r.value[i])
    ensures r.Ok? <==> forall i :: 0 <= i < |items| ==> items[i].ApiObject?
  {
    if items == [] then Ok([])
    else
      var init := MapResults(items[..|items| - 1]);
      var last := items[|items| - 1];
      if init.Err? then init
      else if last.ApiNonObject? then Err(last.message)
      else
        var kept := KeepResult(last);
        if kept.Some? then Ok(init.value + [kept.value]) else init
  }

  /** The rows of two arrays are the rows of each, in order. */
  lemma {:induction false} MapResultsAppend(a: seq<ApiEntry>, b: seq<ApiEntry>)
    requires MapResults(a).Ok? && MapResults(b).Ok?
    ensures MapResults(a + b) == Ok(MapResults(a).value + MapResults(b).value)
    decreases |b|
  {
    if b == [] {
      assert a + b == a;
      assert MapResults(a).value + MapResults(b).value == MapResults(a).value;
    } else {
      var b' := b[..|b| - 1];
      assert (a + b)[..|a + b| - 1] == a + b';
      assert (a + b)[|a + b| - 1] == b[|b| - 1];
      assert MapResults(b').Ok?;
      MapResultsAppend(a, b');
      var last := b[|b| - 1];
      var rowsA, rowsB := MapResults(a).value, MapResults(b').value;
      if KeepResult(last).Some? {
        assert (rowsA + rowsB) + [KeepResult(last).value] == rowsA + (rowsB + [KeepResult(last).value]);
      }
    }
  }

  /** The indices of the array elements that yield a row, in order. */
  function Origins(items: seq<ApiEntry>): seq<nat> {
    if items == [] then []
    else
      var init := Origins(items[..|items| - 1]);
      var last := items[|items| - 1];
      if last.ApiObject? && KeepResult(last).Some? then init + [|items| - 1] else init
  }

  /** Every row comes from an object of the array, and the rows keep the
      array's order: row `i` comes from a strictly earlier element than row `j`
      when `i < j`. */
  lemma {:induction false} MapResultsFromItems(items: seq<ApiEntry>)
    requires MapResults(items).Ok?
    ensures var rows, pos := MapResults(items).value, Origins(items);
      && |pos| == |rows|
      && (forall i :: 0 <= i < |pos| ==> pos[i] < |items| && items[pos[i]].ApiObject? && KeepResult(items[pos[i]]) == Some(rows[i]))
      && (forall i, j :: 0 <= i < j < |pos| ==> pos[i] < pos[j])
  {
    if items != [] {
      var init := items[..|items| - 1];
      MapResultsFromItems(init);
      var pos := Origins(init);
      assert forall i :: 0 <= i < |pos| ==> items[pos[i]] == init[pos[i]];
    }
  }

  /** An object that qualifies appears among the rows. */
  lemma {:induction false} MapResultsKeepsQualified(items: seq<ApiEntry>, k: nat)
    requires MapResults(items).Ok? && k < |items| && KeepResult(items[k]).Some?
    ensures KeepResult(items[k]).value in MapResults(items).value
  {
    var init := items[..|items| - 1];
    if k < |items| - 1 {
      assert init[k] == items[k];
      MapResultsKeepsQualified(init, k);
    }
  }

  /** `searchItunes` after the request: the code must be 200, the body must
      parse, and every element must be an object; the exception message
      otherwise. */
  function SearchOutcome(response: Response): (r: Result<seq<SearchResult>, Option<string>>)
    ensures response.Answer? && response.code != 200 ==> r == Err(Some("HTTP " + IntToString(response.code)))
    ensures r.Ok? ==> response.Answer? && response.code == 200 && response.body.Results?
    ensures r.Ok? ==> forall i :: 0 <= i < |r.value| ==> Playable(r.value[i])
  {
    match response
    case NetworkFailure(m) => Err(m)
    case Answer(code, body) =>
      if code != 200 then Err(Some("HTTP " + IntToString(code)))
      else match body
        case Malformed(m) => Err(m)
        case Results(items) => MapResults(items)
  }

  /** `searchItunes`, from the response on: the loop fills the result list. */
  method SearchItunes(response: Response) returns (r: Result<seq<SearchResult>, Option<string>>)
    ensures r == SearchOutcome(response)
  {
    if response.NetworkFailure? {
      return Err(response.message);
    }
    var code := response.code;
    if code != 200 {
      return Err(Some("HTTP " + IntToString(code)));
    }
    if response.body.Malformed? {
      return Err(response.body.message);
    }
    var arr := response.body.items;
    var res: seq<SearchResult> := [];
    var i := 0;
    while i < |arr|
      invariant 0 <= i <= |arr|
      invariant MapResults(arr[..i]) == Ok(res)
    {
      assert arr[..i + 1][..i] == arr[..i];
      if arr[i].ApiNonObject? {
        // getJSONObject throws; the exception leaves the search
        MapResultsAbort(arr, i);
        return Err(arr[i].message);
      }
      var obj := arr[i];
      var preview := obj.previewUrl.GetOr("");
      var trackId := obj.trackId.GetOr(0);
      var trackName := obj.trackName.GetOr("Inconnu");
      var artistName := obj.artistName.GetOr("Inconnu");
      var timeMs := obj.trackTimeMillis.GetOr(0);
      if !IsBlank(preview) && trackId != 0 {
        res := res + [SearchResult(trackId, trackName, artistName, preview, if timeMs > 0 then Some(timeMs) else None)];
      }
      i := i + 1;
    }
    assert arr[..i] == arr;
    return Ok(res);
  }

  /** Once an element is not an object, the mapping fails with its message,
      whatever follows it. */
  lemma {:induction false} MapResultsAbort(items: seq<ApiEntry>, k: nat)
    requires k < |items| && items[k].ApiNonObject? && MapResults(items[..k]).Ok?
    ensures MapResults(items[..k + 1]) == Err(items[k].message)
    ensures MapResults(items) == Err(items[k].message)
    decreases |items|
  {
    assert items[..k + 1][..k] == items[..k];
    if |items| > k + 1 {
      var init := items[..|items| - 1];
      assert init[..k] == items[..k] && init[k] == items[k];
      MapResultsAbort(init, k);
    } else {
      assert items[..k + 1] == items;
    }
  }

  /** The song a result row plays, adds or previews. */
  function ResultSong(r: SearchResult): (song: Song)
    ensures song.id == r.id && song.uri == r.previewUrl
    ensures song.title == r.title && song.artist == r.artist && song.durationMs == r.durationMs
  {
    Song(r.id, r.title, r.artist, r.previewUrl, r.durationMs)
  }

  /** A song from a search result has a positive duration or none. */
  lemma ResultSongDuration(e: ApiEntry)
    requires e.ApiObject? && KeepResult(e).Some?
    ensures var song := ResultSong(KeepResult(e).value);
      song.id != 0 && (song.durationMs.Some? ==> song.durationMs.value > 0)
  {
  }

  /** `isCurrent`: the service's current song has this result's id. */
  function IsCurrent(currentSongId: Option<Long>, id: Long): (current: bool)
    ensures current <==> currentSongId.Some? && currentSongId.value == id
  {
    currentSongId.Some? && id == currentSongId.value
  }

  /** The callback the preview button fires. */
  datatype PreviewAction = PausePreview | TogglePreview(song: Song)

  /** The preview button: pause the preview that is playing, otherwise ask
      for this song to be played. */
  function PreviewClick(currentSongId: Option<Long>, isPlaying: bool, r: SearchResult): (a: PreviewAction)
    ensures a == PausePreview <==> IsCurrent(currentSongId, r.id) && isPlaying
    ensures a.TogglePreview? ==> a.song == ResultSong(r)
  {
    if IsCurrent(currentSongId, r.id) && isPlaying then PausePreview else TogglePreview(ResultSong(r))
  }

  /** The preview button's glyph. */
  function PreviewLabel(currentSongId: Option<Long>, isPlaying: bool, r: SearchResult): (glyph: string)
    ensures glyph == "⏸" <==> IsCurrent(currentSongId, r.id) && isPlaying
    ensures glyph != "⏸" ==> glyph == "▶"
  {
    if IsCurrent(currentSongId, r.id) && isPlaying then "⏸" else "▶"
  }

  /** The glyph shows pause exactly when the button pauses. */
  lemma PreviewLabelMatchesClick(currentSongId: Option<Long>, isPlaying: bool, r: SearchResult)
    ensures PreviewLabel(currentSongId, isPlaying, r) == "⏸" <==> PreviewClick(currentSongId, isPlaying, r) == PausePreview
  {
  }

  /** The download button of a result row: its preview url and file name. */
  function ResultDownload(r: SearchResult): (request: (string, string))
    ensures request.0 == r.previewUrl
    ensures request.1 == Downloads.DownloadFileName(r.title, r.artist)
    ensures forall i :: 0 <= i < |request.1| ==> request.1[i] != '/'
  {
    (r.previewUrl, Downloads.DownloadFileName(r.title, r.artist))
  }

  /** The text shown for a failed search. */
  function ErrorText(message: Option<string>): (text: string)
    ensures |text| >= 21 && text[..21] == "Erreur de recherche: "
    ensures message.Some? ==> text[21..] == message.value
    ensures message.None? ==> text[21..] == "null"
  {
    "Erreur de recherche: " + message.GetOr("null")
  }

  /** The dialog's state: the query field, the loading flag, the error line
      and the listed rows. */
  class SearchSongDialog {
    var query: string
    var isLoading: bool
    var errorMsg: Option<string>
    var results: seq<SearchResult>

    constructor()
      ensures query == "" && !isLoading && errorMsg == None && results == []
    {
      query := "";
      isLoading := false;
      errorMsg := None;
      results := [];
    }

    /** Typing into the query field. */
    method OnQueryChange(text: string)
      modifies this`query
      ensures query == text
    {
      query := text;
    }

    /** The "Rechercher" button, with the search run to its end on `response`:
        a blank query does nothing; otherwise the rows are replaced on success,
        and on failure the error line is set and the old rows stay. */
    method OnSearchClick(response: Response)
      modifies this`isLoading, this`errorMsg, this`results
      ensures IsBlank(query) ==> isLoading == old(isLoading) && errorMsg == old(errorMsg) && results == old(results)
      ensures !IsBlank(query) ==> !isLoading
      ensures !IsBlank(query) && SearchOutcome(response).Ok? ==>
        results == SearchOutcome(response).value && errorMsg == None
      ensures !IsBlank(query) && SearchOutcome(response).Err? ==>
        results == old(results) && errorMsg == Some(ErrorText(SearchOutcome(response).error))
    {
      if IsBlank(query) {
        return;
      }
      isLoading := true;
      errorMsg := None;
      var outcome := SearchItunes(response);
      match outcome {
        case Ok(list) => results := list;
        case Err(m) => errorMsg := Some(ErrorText(m));
      }
      isLoading := false;
    }
  }
}
