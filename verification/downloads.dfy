/**
 * The desktop shell's download commands: the file-name sanitiser, the
 * per-track file name of a playlist download, and the sequence of progress
 * events and the success counter of a playlist download.
 *
 * The file system, the executable lookup and the external downloader are an
 * environment value (`Env`); a downloader run is `None` when the process
 * could not be started, else whether it exited successfully.
 */
module Downloads {
  import opened Wrappers
  import opened Text

  /** The nine characters that may not appear in a file name. */
  predicate IsReserved(c: char) {
    c == '<' || c == '>' || c == ':' || c == '"' || c == '/' || c == '\\' || c == '|' || c == '?' || c == '*'
  }

  function SanitizeChar(c: char): (r: char)
    ensures !IsReserved(r)
    ensures IsReserved(c) ==> r == '_'
    ensures !IsReserved(c) ==> r == c
  {
    if IsReserved(c) then '_' else c
  }

  /** Each reserved character becomes `_`; every other character is kept, so the length is kept too. */
  function Sanitize(s: string): (r: string)
    ensures |r| == |s|
    ensures forall k :: 0 <= k < |s| ==> !IsReserved(r[k])
    ensures forall k :: 0 <= k < |s| ==> r[k] == (if IsReserved(s[k]) then '_' else s[k])
  {
    seq(|s|, k requires 0 <= k < |s| => SanitizeChar(s[k]))
  }

  /** Sanitising a sanitised name changes nothing. */
  lemma SanitizeIdempotent(s: string)
    ensures Sanitize(Sanitize(s)) == Sanitize(s)
  {
    var once := Sanitize(s);
    assert forall k :: 0 <= k < |once| ==> Sanitize(once)[k] == once[k];
  }

  /** A name without reserved characters is its own sanitised form. */
  lemma SanitizeClean(s: string)
    requires forall k :: 0 <= k < |s| ==> !IsReserved(s[k])
    ensures Sanitize(s) == s
  {
  }

  /** Sanitising distributes over concatenation. */
  lemma SanitizeAppend(a: string, b: string)
    ensures Sanitize(a + b) == Sanitize(a) + Sanitize(b)
  {
    assert forall k :: 0 <= k < |a + b| ==> Sanitize(a + b)[k] == (Sanitize(a) + Sanitize(b))[k];
  }

  /** A track of the playlist as the command reads its JSON: each field is `None` when missing or not a string. */
  datatype JsonTrack = JsonTrack(title: Option<string>, artist: Option<string>, permalinkUrl: Option<string>)

  function Title(t: JsonTrack): string { t.title.GetOr("Unknown") }
  function Artist(t: JsonTrack): string { t.artist.GetOr("Unknown") }

  /** `format!("{:02}", n)`: the decimal digits of `n`, zero-padded to two. */
  function Pad2(n: nat): (r: string)
    ensures |r| >= 2 && AllDigits(r) && ParseDecimal(r) == n
    ensures n >= 10 ==> r == Decimal(n)
  {
    ParseDecimalRoundTrip(n);
    var d := Decimal(n);
    if |d| == 1 then
      assert ParseDecimal(d[..0]) == 0;
      assert ("0" + d)[..1] == "0";
      "0" + d
    else d
  }

  /** The single-track file name: `artist - title`, sanitised. */
  function TrackFileName(artist: string, title: string): string {
    Sanitize(artist + " - " + title)
  }

  /** The file name of the track at 0-based `index` of a playlist: `NN - artist - title`, sanitised. */
  function PlaylistFileName(index: nat, t: JsonTrack): string {
    Sanitize(Pad2(index + 1) + " - " + Artist(t) + " - " + Title(t))
  }

  /** The name reads back: its leading digits spell `index + 1`, then come ` - ` and the sanitised artist and title; it holds no reserved character. */
  lemma PlaylistFileNameSpec(index: nat, t: JsonTrack)
    ensures var f := PlaylistFileName(index, t); var p := Pad2(index + 1);
      && |f| == |p| + 6 + |Artist(t)| + |Title(t)|
      && f[..|p|] == p && ParseDecimal(f[..|p|]) == index + 1
      && f[|p|..|p| + 3] == " - "
      && f[|p| + 3..] == Sanitize(Artist(t)) + " - " + Sanitize(Title(t))
      && forall k :: 0 <= k < |f| ==> !IsReserved(f[k])
  {
    var p := Pad2(index + 1);
    var a := Artist(t);
    var b := Title(t);
    SanitizeAppend(p + " - " + a + " - ", b);
    SanitizeAppend(p + " - " + a, " - ");
    SanitizeAppend(p + " - ", a);
    SanitizeAppend(p, " - ");
    SanitizeClean(p);
    SanitizeClean(" - ");
    var f := PlaylistFileName(index, t);
    var tail := Sanitize(a) + " - " + Sanitize(b);
    assert f == p + " - " + tail;
    assert f[..|p|] == p;
    assert f[|p|..|p| + 3] == " - ";
    assert f[|p| + 3..] == tail;
  }

  /** What the shell offers the command. */
  datatype Env = Env(
    /** The executable's directory could be found. */
    exeDir: bool,
    /** The downloader executable is present there. */
    hasDownloader: bool,
    /** The target directory could be created. */
    dirCreated: bool,
    /** A downloader run for an output name and a URL: `None` if it could not start, else its success. */
    run: (string, string) -> Option<bool>)

  datatype SetupError = NoExeDir | NoDownloader | NoDirectory | CannotStart | Failed(fileName: string)

  /** `download_track`: the sanitised name on success. */
  function DownloadTrack(env: Env, url: string, title: string, artist: string): (r: Result<string, SetupError>)
    ensures r.Ok? <==> env.exeDir && env.hasDownloader && env.dirCreated && env.run(TrackFileName(artist, title), url) == Some(true)
    ensures r.Ok? ==> r.value == TrackFileName(artist, title)
  {
    if !env.exeDir then Err(NoExeDir)
    else if !env.hasDownloader then Err(NoDownloader)
    else if !env.dirCreated then Err(NoDirectory)
    else
      var name := TrackFileName(artist, title);
      match env.run(name, url)
      case None => Err(CannotStart)
      case Some(ok) => if ok then Ok(name) else Err(Failed(name))
  }

  datatype Status = Starting | Downloading | Completed

  /** A `download_progress` event; `currentTrack` is only sent while downloading. */
  datatype Event = Event(current: nat, total: nat, status: Status, currentTrack: Option<string>)

  /** The summary message's data: tracks downloaded, tracks given, the sanitised folder name. */
  datatype Summary = Summary(completed: nat, total: nat, folder: string)

  /** A track is attempted exactly when it has a non-empty permalink. */
  predicate Attempted(t: JsonTrack) {
    t.permalinkUrl.Some? && t.permalinkUrl.value != ""
  }

  /** The `downloading` events for the tracks `ts`, each naming its track's 0-based position. */
  function ProgressEvents(ts: seq<JsonTrack>, total: nat): seq<Event>
    decreases |ts|
  {
    if ts == [] then []
    else
      var n := |ts| - 1;
      var t := ts[n];
      ProgressEvents(ts[..n], total) +
        (if Attempted(t) then [Event(n, total, Downloading, Some(Artist(t) + " - " + Title(t)))] else [])
  }

  /** Every event of a playlist download whose setup succeeded: `starting`, the `downloading` events, `completed`. */
  function PlaylistEvents(tracks: seq<JsonTrack>): seq<Event> {
    [Event(0, |tracks|, Starting, None)] + ProgressEvents(tracks, |tracks|) + [Event(|tracks|, |tracks|, Completed, None)]
  }

  /** The number of successful downloader runs over the tracks `ts`. */
  function Successes(env: Env, ts: seq<JsonTrack>): nat
    decreases |ts|
  {
    if ts == [] then 0
    else
      var n := |ts| - 1;
      var t := ts[n];
      Successes(env, ts[..n]) +
        (if Attempted(t) && env.run(PlaylistFileName(n, t), t.permalinkUrl.value) == Some(true) then 1 else 0)
  }

  /** The number of attempted tracks. */
  function AttemptedCount(ts: seq<JsonTrack>): nat
    decreases |ts|
  {
    if ts == [] then 0 else AttemptedCount(ts[..|ts| - 1]) + (if Attempted(ts[|ts| - 1]) then 1 else 0)
  }

  /**
   * The progress events: one per attempted track, in playlist order, each
   * naming that track's 0-based position, which strictly increases.
   */
  lemma {:induction false} ProgressEventsSpec(ts: seq<JsonTrack>, total: nat)
    ensures |ProgressEvents(ts, total)| == AttemptedCount(ts) <= |ts|
    ensures forall k :: 0 <= k < |ProgressEvents(ts, total)| ==>
      var e := ProgressEvents(ts, total)[k];
      e.status == Downloading && e.total == total && e.current < |ts| && Attempted(ts[e.current])
    ensures forall j, k :: 0 <= j < k < |ProgressEvents(ts, total)| ==>
      ProgressEvents(ts, total)[j].current < ProgressEvents(ts, total)[k].current
    decreases |ts|
  {
    if ts != [] {
      var n := |ts| - 1;
      var pre := ProgressEvents(ts[..n], total);
      var ev := ProgressEvents(ts, total);
      ProgressEventsSpec(ts[..n], total);
      assert ev[..|pre|] == pre;
      assert |ev| > |pre| ==> ev[|pre|].current == n;
      forall k | 0 <= k < |ev|
        ensures ev[k].status == Downloading && ev[k].total == total && ev[k].current < |ts| && Attempted(ts[ev[k].current])
      {
        if k < |pre| {
          assert ev[k] == pre[k];
          assert ts[..n][pre[k].current] == ts[pre[k].current];
        }
      }
      forall j, k | 0 <= j < k < |ev|
        ensures ev[j].current < ev[k].current
      {
        assert ev[j] == pre[j];
        if k < |pre| {
          assert ev[k] == pre[k];
        }
      }
    }
  }

  /** At most the attempted tracks succeed. */
  lemma {:induction false} SuccessesBound(env: Env, ts: seq<JsonTrack>)
    ensures Successes(env, ts) <= AttemptedCount(ts) <= |ts|
    decreases |ts|
  {
    if ts != [] {
      SuccessesBound(env, ts[..|ts| - 1]);
    }
  }

  /**
   * `download_playlist`: setup failures return early with no event;
   * otherwise `starting`, one `downloading` event per attempted track, then
   * `completed` with `current == total`, and the count of successful runs.
   */
  method DownloadPlaylist(env: Env, playlistName: string, tracks: seq<JsonTrack>)
    returns (r: Result<Summary, SetupError>, events: seq<Event>)
    ensures !env.exeDir ==> r == Err(NoExeDir) && events == []
    ensures env.exeDir && !env.hasDownloader ==> r == Err(NoDownloader) && events == []
    ensures env.exeDir && env.hasDownloader && !env.dirCreated ==> r == Err(NoDirectory) && events == []
    ensures env.exeDir && env.hasDownloader && env.dirCreated ==>
      && r == Ok(Summary(Successes(env, tracks), |tracks|, Sanitize(playlistName)))
      && events == PlaylistEvents(tracks)
  {
    if !env.exeDir {
      return Err(NoExeDir), [];
    }
    if !env.hasDownloader {
      return Err(NoDownloader), [];
    }
    var folder := Sanitize(playlistName);
    if !env.dirCreated {
      return Err(NoDirectory), [];
    }
    var total := |tracks|;
    var completed := 0;
    events := [Event(0, total, Starting, None)];
    var index := 0;
    while index < |tracks|
      invariant 0 <= index <= |tracks|
      invariant events == [Event(0, total, Starting, None)] + ProgressEvents(tracks[..index], total)
      invariant completed == Successes(env, tracks[..index])
    {
      var t := tracks[index];
      assert tracks[..index + 1][..index] == tracks[..index];
      assert tracks[..index + 1][index] == t;
      var title := Title(t);
      var artist := Artist(t);
      var url := t.permalinkUrl.GetOr("");
      if url != "" {
        var fileName := PlaylistFileName(index, t);
        events := events + [Event(index, total, Downloading, Some(artist + " - " + title))];
        var output := env.run(fileName, url);
        if output == Some(true) {
          completed := completed + 1;
        }
      }
      index := index + 1;
    }
    assert tracks[..index] == tracks;
    events := events + [Event(total, total, Completed, None)];
    r := Ok(Summary(completed, total, folder));
  }
}
