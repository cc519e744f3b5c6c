/** The download file name built by the list row, the detail screen and the
    search dialog alike: "title - artist" with slashes made harmless, plus the
    ".mp3" extension. */
module Downloads {
  import opened KotlinText

  /** `"${title} - ${artist}".replace("/", "-") + ".mp3"`. */
  function DownloadFileName(title: string, artist: string): (name: string)
    ensures |name| == |title| + |artist| + 7
    ensures forall i :: 0 <= i < |name| ==> name[i] != '/'
    ensures name[|name| - 4..] == ".mp3"
    ensures forall i :: 0 <= i < |title| ==> name[i] == if title[i] == '/' then '-' else title[i]
    ensures name[|title|..|title| + 3] == " - "
    ensures forall i :: 0 <= i < |artist| ==> name[|title| + 3 + i] == if artist[i] == '/' then '-' else artist[i]
  {
    var full := title + " - " + artist;
    var safe := ReplaceChar(full, '/', '-');
    assert forall i :: 0 <= i < |artist| ==> full[|title| + 3 + i] == artist[i];
    safe + ".mp3"
  }

  /** A title and an artist without slashes are used exactly as given. */
  lemma CleanNamesKept(title: string, artist: string)
    requires forall i :: 0 <= i < |title| ==> title[i] != '/'
    requires forall i :: 0 <= i < |artist| ==> artist[i] != '/'
    ensures DownloadFileName(title, artist) == title + " - " + artist + ".mp3"
  {
    var name := DownloadFileName(title, artist);
    var plain := title + " - " + artist + ".mp3";
    forall i | 0 <= i < |name| ensures name[i] == plain[i] {
      if i < |title| {
      } else if i < |title| + 3 {
        assert name[|title|..|title| + 3][i - |title|] == name[i];
      } else if i < |title| + 3 + |artist| {
        assert name[|title| + 3 + (i - |title| - 3)] == name[i];
      } else {
        assert name[|name| - 4..][i - (|name| - 4)] == name[i];
      }
    }
  }
}
