/**
 * The playlists page: which track's cover represents a playlist, the line of
 * artist names, the create/click/back/download handlers, and the button
 * colour taken from the cover's pixels (channel means, then a brightening
 * boost for dull colours).
 *
 * The cover image's RGBA bytes are a parameter; loading it and drawing it on
 * a canvas are not modelled.
 */
module PlaylistsPage {
  import opened Wrappers
  import opened Text
  import opened Media
  import MyWave

  // ---- cover and artist line ----

  /** The current track when the playlist holds its id, else the playlist's last track. */
  function CoverTrack(current: Option<Track>, tracks: seq<Track>): (r: Track)
    requires |tracks| > 0
    ensures current.Some? && HasId(tracks, current.value.id) ==> r == current.value
    ensures !(current.Some? && HasId(tracks, current.value.id)) ==> r == tracks[|tracks| - 1]
  {
    if current.Some? && HasId(tracks, current.value.id) then current.value else tracks[|tracks| - 1]
  }

  function Usernames(tracks: seq<Track>): (r: seq<string>)
    ensures |r| == |tracks| && forall k :: 0 <= k < |tracks| ==> r[k] == tracks[k].user.username
  {
    seq(|tracks|, k requires 0 <= k < |tracks| => tracks[k].user.username)
  }

  /** The distinct usernames in order of first appearance, at most four. */
  function ArtistNames(tracks: seq<Track>): seq<string> {
    var d := MyWave.Distinct(Usernames(tracks));
    d[..MyWave.Min(|d|, 4)]
  }

  /** The artist line: those names joined by `, `. */
  function ArtistLine(tracks: seq<Track>): string {
    Join(ArtistNames(tracks), ", ")
  }

  /**
   * The names are distinct, at most four, each some track's artist; with
   * fewer than four, every artist of the playlist is named.
   */
  lemma ArtistNamesSpec(tracks: seq<Track>)
    ensures var names := ArtistNames(tracks);
      && |names| <= 4 && MyWave.NoDups(names)
      && (forall n :: n in names ==> exists t :: t in tracks && t.user.username == n)
      && (|names| < 4 ==> forall t :: t in tracks ==> t.user.username in names)
  {
    var all := Usernames(tracks);
    var d := MyWave.Distinct(all);
    MyWave.DistinctSpec(all);
    var names := ArtistNames(tracks);
    forall n | n in names
      ensures exists t :: t in tracks && t.user.username == n
    {
      assert n in d;
      var i :| 0 <= i < |all| && all[i] == n;
      assert tracks[i] in tracks;
    }
    forall t | t in tracks && |names| < 4
      ensures t.user.username in names
    {
      var i :| 0 <= i < |tracks| && tracks[i] == t;
      assert all[i] in d;
    }
  }

  /** The names of a playlist's first `k` tracks begin the names of the whole playlist. */
  lemma ArtistNamesPrefix(tracks: seq<Track>, k: nat)
    requires k <= |tracks|
    ensures |ArtistNames(tracks[..k])| <= |ArtistNames(tracks)|
    ensures ArtistNames(tracks)[..|ArtistNames(tracks[..k])|] == ArtistNames(tracks[..k])
  {
    var all := Usernames(tracks);
    var pre := Usernames(tracks[..k]);
    assert all == pre + all[k..];
    MyWave.DistinctPrefix(pre, all[k..]);
  }

  // ---- page handlers ----

  /** The page's own state and the pending track it shares with the player. */
  datatype PageState = PageState(
    newPlaylistName: string,
    selectedPlaylist: Option<string>,
    showCreateForm: bool,
    pendingTrack: Option<Track>)

  /** What a handler asks the player to do. */
  datatype Command =
    | NoCommand
    | CreatePlaylist(name: string)
    | AddTrack(playlistId: string, track: Track)
    | DownloadPlaylist(name: string, tracks: seq<Track>)

  /** `handleCreatePlaylist`: a non-blank name creates a playlist under the trimmed name and closes the form. */
  function HandleCreate(st: PageState): (PageState, Command) {
    var name := Trim(st.newPlaylistName);
    if name != "" then (st.(newPlaylistName := "", showCreateForm := false), CreatePlaylist(name))
    else (st, NoCommand)
  }

  /** A blank name does nothing; otherwise the created name is the input without surrounding whitespace. */
  lemma HandleCreateSpec(st: PageState)
    ensures var (st', cmd) := HandleCreate(st);
      && ((forall k :: 0 <= k < |st.newPlaylistName| ==> IsSpace(st.newPlaylistName[k])) <==> cmd == NoCommand)
      && (cmd == NoCommand ==> st' == st)
      && (cmd != NoCommand ==>
            && cmd == CreatePlaylist(Trim(st.newPlaylistName)) && TrimmedOf(cmd.name, st.newPlaylistName)
            && cmd.name != "" && !IsSpace(cmd.name[0]) && !IsSpace(cmd.name[|cmd.name| - 1])
            && st' == st.(newPlaylistName := "", showCreateForm := false))
  {
    TrimEmptyIffBlank(st.newPlaylistName);
    var t := TrimStart(st.newPlaylistName);
    var name := Trim(st.newPlaylistName);
    if name != "" {
      TrimSpec(st.newPlaylistName);
      assert HandleCreate(st) == (st.(newPlaylistName := "", showCreateForm := false), CreatePlaylist(name));
      assert name[0] == t[0];
    } else {
      assert HandleCreate(st) == (st, NoCommand);
    }
  }

  /** `handlePlaylistClick`: a pending track is added to the clicked playlist and cleared; otherwise the playlist is selected. */
  function HandlePlaylistClick(st: PageState, playlistId: string): (r: (PageState, Command))
    ensures st.pendingTrack.Some? ==> r == (st.(pendingTrack := None), AddTrack(playlistId, st.pendingTrack.value))
    ensures st.pendingTrack.None? ==> r == (st.(selectedPlaylist := Some(playlistId)), NoCommand)
  {
    match st.pendingTrack
    case Some(t) => (st.(pendingTrack := None), AddTrack(playlistId, t))
    case None => (st.(selectedPlaylist := Some(playlistId)), NoCommand)
  }

  /** `handleBackClick`: clears the pending track if there is one, else the selection. */
  function HandleBack(st: PageState): (r: PageState)
    ensures st.pendingTrack.Some? ==> r == st.(pendingTrack := None)
    ensures st.pendingTrack.None? ==> r == st.(selectedPlaylist := None)
  {
    if st.pendingTrack.Some? then st.(pendingTrack := None) else st.(selectedPlaylist := None)
  }

  /** `playlists.find(p => p.id === id)`. */
  function Find(playlists: seq<Playlist>, id: string): (r: Option<Playlist>)
    ensures r.Some? ==> r.value.id == id
    ensures r.Some? ==> exists i :: 0 <= i < |playlists| && playlists[i] == r.value && (forall j :: 0 <= j < i ==> playlists[j].id != id)
    ensures r.None? ==> forall p :: p in playlists ==> p.id != id
  {
    if playlists == [] then None
    else if playlists[0].id == id then Some(playlists[0])
    else Find(playlists[1..], id)
  }

  /** `handleDownloadPlaylist`: only a selected playlist with tracks is downloaded. */
  function HandleDownload(st: PageState, playlists: seq<Playlist>): (cmd: Command)
    ensures cmd != NoCommand ==>
      && st.selectedPlaylist.Some? && cmd.DownloadPlaylist? && cmd.tracks != []
      && exists p :: p in playlists && p.id == st.selectedPlaylist.value && p.name == cmd.name && p.tracks == cmd.tracks
    ensures st.selectedPlaylist.None? ==> cmd == NoCommand
    ensures st.selectedPlaylist.Some? ==> match Find(playlists, st.selectedPlaylist.value)
      case None => cmd == NoCommand
      case Some(p) => cmd == if p.tracks != [] then DownloadPlaylist(p.name, p.tracks) else NoCommand
  {
    if st.selectedPlaylist.None? then NoCommand
    else match Find(playlists, st.selectedPlaylist.value)
      case None => NoCommand
      case Some(p) => if |p.tracks| > 0 then DownloadPlaylist(p.name, p.tracks) else NoCommand
  }

  // ---- the button colour ----

  datatype Rgb = Rgb(r: int, g: int, b: int)

  predicate InRange(c: Rgb) {
    0 <= c.r <= 255 && 0 <= c.g <= 255 && 0 <= c.b <= 255
  }

  /** The sum of channel `k` (0 red, 1 green, 2 blue) over the first `n` RGBA pixels. */
  function ChannelSum(data: seq<byte>, k: nat, n: nat): (r: int)
    requires k < 4 && 4 * n <= |data|
    ensures 0 <= r <= 255 * n
  {
    if n == 0 then 0 else ChannelSum(data, k, n - 1) + data[4 * (n - 1) + k] as int
  }

  /** The per-channel mean over all pixels, floored; `None` for an image without pixels, which has no mean. */
  function Average(data: seq<byte>): (c: Option<Rgb>)
    requires |data| % 4 == 0
    ensures c.None? <==> |data| == 0
    ensures c.Some? ==> InRange(c.value)
  {
    var n := |data| / 4;
    if n == 0 then None
    else
      var r, g, b := ChannelSum(data, 0, n), ChannelSum(data, 1, n), ChannelSum(data, 2, n);
      MeanBound(r, n);
      MeanBound(g, n);
      MeanBound(b, n);
      Some(Rgb(r / n, g / n, b / n))
  }

  /** The floored mean of byte values is a byte value. */
  lemma MeanBound(sum: int, n: int)
    requires n > 0 && 0 <= sum <= 255 * n
    ensures 0 <= sum / n <= 255
  {
  }

  function Max3(a: int, b: int, c: int): int {
    if a >= b && a >= c then a else if b >= c then b else c
  }

  function Min3(a: int, b: int, c: int): int {
    if a <= b && a <= c then a else if b <= c then b else c
  }

  /** A saturation `(max - min) / max` below 0.3, black counting as 0. */
  predicate Dull(c: Rgb) {
    var max := Max3(c.r, c.g, c.b);
    var min := Min3(c.r, c.g, c.b);
    max == 0 || 10 * (max - min) < 3 * max
  }

  /** `Math.min(255, Math.floor(c * 1.2))` for a channel in [0, 255]. */
  function BoostChannel(c: int): int
    requires 0 <= c <= 255
  {
    if 6 * c / 5 < 255 then 6 * c / 5 else 255
  }

  /** A dull colour has every channel raised by a fifth, capped at 255; any other colour is kept. */
  function Boost(c: Rgb): (r: Rgb)
    requires InRange(c)
    ensures InRange(r)
    ensures !Dull(c) ==> r == c
    ensures Dull(c) ==> c.r <= r.r && c.g <= r.g && c.b <= r.b
    ensures Dull(c) && Max3(c.r, c.g, c.b) == 0 ==> r == c
  {
    if Dull(c) then Rgb(BoostChannel(c.r), BoostChannel(c.g), BoostChannel(c.b)) else c
  }

  /** The pixel loop: one step per RGBA quadruple, summing the three colour channels and counting pixels. */
  method AverageColor(data: array<byte>) returns (c: Option<Rgb>)
    requires data.Length % 4 == 0
    ensures c == Average(data[..])
  {
    var r, g, b, count := 0, 0, 0, 0;
    var i := 0;
    while i < data.Length
      invariant 0 <= i <= data.Length && i % 4 == 0 && count == i / 4
      invariant r == ChannelSum(data[..], 0, count)
      invariant g == ChannelSum(data[..], 1, count)
      invariant b == ChannelSum(data[..], 2, count)
    {
      r := r + data[i] as int;
      g := g + data[i + 1] as int;
      b := b + data[i + 2] as int;
      count := count + 1;
      i := i + 4;
    }
    if count == 0 {
      return None;
    }
    c := Some(Rgb(r / count, g / count, b / count));
  }

  /**
   * The colour set on the buttons once the cover has loaded. `None` means no
   * colour is set: reading the pixels of an image without any throws, the
   * handler ends and the buttons keep their colour.
   */
  method ButtonColor(data: array<byte>) returns (c: Option<Rgb>)
    requires data.Length % 4 == 0
    ensures c.None? <==> data.Length == 0
    ensures c.Some? ==> InRange(c.value) && c == Some(Boost(Average(data[..]).value))
  {
    var avg := AverageColor(data);
    if avg.None? {
      return None;
    }
    c := Some(Boost(avg.value));
  }
}
