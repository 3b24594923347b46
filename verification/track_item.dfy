/**
 * A track row: what a click on it asks the player to play, the link that
 * is copied or downloaded when the track has no permalink (a slug built
 * from the title), the current/playing flags, the context menu, and the
 * like button.
 *
 * The player context's shared state that a row reads and writes (the open
 * context menu, the track waiting to be added to a playlist, the active
 * page) is a value; the clipboard and the download command are effects the
 * handlers return.
 */
module TrackItem {
  import opened Wrappers
  import opened Text
  import opened Media
  import MyWave
  import PlayerContext

  /** A row's props; `context` is `None` when the caller gives none. */
  datatype Props = Props(
    track: Track,
    index: Option<int>,
    queue: Option<seq<Track>>,
    hasOnPlay: bool,
    hidePlaylistMenu: bool,
    context: Option<string>)

  /** The likes context of a row, `default` when none is given. */
  function LikeContext(p: Props): (c: string)
    ensures p.context.None? ==> c == "default"
    ensures p.context.Some? ==> c == p.context.value
  {
    p.context.GetOr("default")
  }

  // ---- click dispatch ----

  /** What a click does: call the row's own `onPlay`, or call `playTrack` with these arguments. */
  datatype Click =
    | CallOnPlay
    | Play(track: Track, queue: Option<seq<Track>>, index: Option<int>)

  /**
   * `handleClick`: the row's `onPlay` wins; otherwise a queue and an index
   * are both passed on, the index unchanged; otherwise the track alone.
   */
  function HandleClick(p: Props): (c: Click)
    ensures p.hasOnPlay <==> c == CallOnPlay
    ensures !p.hasOnPlay ==> c.track == p.track
    ensures !p.hasOnPlay && p.queue.Some? && p.index.Some? ==> c.queue == p.queue && c.index == p.index
    ensures !p.hasOnPlay && !(p.queue.Some? && p.index.Some?) ==> c.queue.None? && c.index.None?
  {
    if p.hasOnPlay then CallOnPlay
    else if p.queue.Some? && p.index.Some? then Play(p.track, p.queue, p.index)
    else Play(p.track, None, None)
  }

  /** The props of the row for `q[k]` in a list page: `index` is the number the caller passes. */
  function ListRow(q: seq<Track>, k: nat, index: int, hideMenu: bool, context: string): Props
    requires k < |q|
  {
    Props(q[k], Some(index), Some(q), false, hideMenu, Some(context))
  }

  /**
   * As written, both list pages number their rows from 1 and pass that
   * number as the queue index. Clicking row `k` then plays `q[k]` with index
   * `k + 1`: "previous" plays the clicked track again, "next" skips `q[k + 1]`,
   * and on the last row repeat-one asks for a position past the end.
   */
  lemma RowClickAsWritten(q: seq<Track>, k: nat, hideMenu: bool, context: string)
    requires k < |q|
    ensures HandleClick(ListRow(q, k, k + 1, hideMenu, context)) == Play(q[k], Some(q), Some(k + 1))
    ensures PlayerContext.Step(PlayerContext.Backward, |q|, k + 1, Off, false, 0) == Some(k)
    ensures k + 2 < |q| ==> PlayerContext.Step(PlayerContext.Forward, |q|, k + 1, Off, false, 0) == Some(k + 2)
    ensures k + 1 == |q| ==> PlayerContext.Step(PlayerContext.Forward, |q|, k + 1, One, false, 0) == Some(|q| as int)
  {
  }

  /**
   * With the row's 0-based position as the index, a click plays `q[k]` at
   * position `k`, which is also the position `playTrack` would find for it
   * when ids are unique; next and previous then move to the neighbouring
   * rows, and in every mode the chosen position lies inside the queue.
   */
  lemma RowClickPlaysRow(q: seq<Track>, k: nat, hideMenu: bool, context: string, repeat: RepeatMode, shuffle: bool, draw: int)
    requires k < |q|
    requires shuffle && repeat != One ==> PlayerContext.AcceptableDraw(|q|, k, draw)
    ensures HandleClick(ListRow(q, k, k, hideMenu, context)) == Play(q[k], Some(q), Some(k))
    ensures UniqueIds(q) ==> FindIndex(q, q[k].id) == k
    ensures PlayerContext.Step(PlayerContext.Forward, |q|, k, Off, false, 0) == if k + 1 < |q| then Some(k + 1) else None
    ensures PlayerContext.Step(PlayerContext.Backward, |q|, k, Off, false, 0) == if k > 0 then Some(k - 1) else None
    ensures forall dir: PlayerContext.Direction ::
      var s := PlayerContext.Step(dir, |q|, k, repeat, shuffle, draw);
      s.Some? ==> 0 <= s.value < |q|
  {
    forall dir: PlayerContext.Direction
      ensures var s := PlayerContext.Step(dir, |q|, k, repeat, shuffle, draw); s.Some? ==> 0 <= s.value < |q|
    {
      PlayerContext.StepInRange(dir, |q|, k, repeat, shuffle, draw);
    }
  }

  // ---- flags ----

  /** `currentTrack?.id === track.id`. */
  function IsCurrentTrack(current: Option<Track>, track: Track): bool {
    current.Some? && current.value.id == track.id
  }

  function IsCurrentlyPlaying(current: Option<Track>, isPlaying: bool, track: Track): bool {
    IsCurrentTrack(current, track) && isPlaying
  }

  /** After a track is played, exactly the rows with its id are current, and they show as playing exactly while playback runs. */
  lemma PlayedRowIsCurrent(played: Track, isPlaying: bool, row: Track)
    ensures IsCurrentTrack(Some(played), row) <==> row.id == played.id
    ensures IsCurrentlyPlaying(Some(played), isPlaying, row) <==> row.id == played.id && isPlaying
    ensures !IsCurrentTrack(None, row) && !IsCurrentlyPlaying(None, isPlaying, row)
  {
  }

  // ---- fallback link ----

  predicate NoSpace(s: string) {
    forall k :: 0 <= k < |s| ==> !IsSpace(s[k])
  }

  /** `s.replace(/\s+/g, '-')`: every maximal run of whitespace becomes one `-`. */
  function Hyphenate(s: string): (r: string)
    ensures NoSpace(r) && |r| <= |s|
    decreases |s|
  {
    if s == [] then []
    else if IsSpace(s[0]) then "-" + Hyphenate(TrimStart(s[1..]))
    else [s[0]] + Hyphenate(s[1..])
  }

  /** A string without whitespace is left as it is. */
  lemma {:induction false} HyphenateClean(s: string)
    requires NoSpace(s)
    ensures Hyphenate(s) == s
    decreases |s|
  {
    if s != [] {
      HyphenateClean(s[1..]);
    }
  }

  /** Whitespace skipped up to the next other character. */
  lemma {:induction false} TrimStartRun(sp: string, rest: string)
    requires forall k :: 0 <= k < |sp| ==> IsSpace(sp[k])
    requires rest == [] || !IsSpace(rest[0])
    ensures TrimStart(sp + rest) == rest
    decreases |sp|
  {
    if sp != [] {
      assert (sp + rest)[1..] == sp[1..] + rest;
      TrimStartRun(sp[1..], rest);
    }
  }

  /** A word, a run of whitespace and the rest: the word is kept, the whole run becomes one `-`. */
  lemma {:induction false} HyphenateRun(w: string, sp: string, rest: string)
    requires NoSpace(w)
    requires sp != [] && forall k :: 0 <= k < |sp| ==> IsSpace(sp[k])
    requires rest == [] || !IsSpace(rest[0])
    ensures Hyphenate(w + sp + rest) == w + "-" + Hyphenate(rest)
    decreases |w|
  {
    if w == [] {
      assert w + sp + rest == sp + rest;
      assert (sp + rest)[1..] == sp[1..] + rest;
      TrimStartRun(sp[1..], rest);
    } else {
      assert (w + sp + rest)[1..] == w[1..] + sp + rest;
      HyphenateRun(w[1..], sp, rest);
    }
  }

  /** The slug is idempotent: hyphenating it again changes nothing. */
  lemma HyphenateIdempotent(s: string)
    ensures Hyphenate(Hyphenate(s)) == Hyphenate(s)
  {
    HyphenateClean(Hyphenate(s));
  }

  /** The title lowered, its whitespace runs turned into `-`: no whitespace is left. */
  function Slug(title: string): (r: string)
    ensures NoSpace(r) && |r| <= |title|
  {
    Hyphenate(ToLower(title))
  }

  const ProfileBase := "https://soundcloud.com/"

  /** The link a row copies or downloads: the permalink if present, else the artist's profile path followed by the slug. */
  function Link(t: Track): (r: string)
    ensures Present(t.permalinkUrl) ==> r == t.permalinkUrl.value
    ensures !Present(t.permalinkUrl) ==>
      var n := |ProfileBase| + |t.user.username| + 1;
      && |r| >= n && r[..n] == ProfileBase + t.user.username + "/"
      && NoSpace(r[n..]) && r[n..] == Slug(t.title)
  {
    if Present(t.permalinkUrl) then t.permalinkUrl.value
    else
      var r := ProfileBase + t.user.username + "/" + Slug(t.title);
      assert r[..|ProfileBase| + |t.user.username| + 1] == ProfileBase + t.user.username + "/";
      r
  }

  // ---- context menu ----

  /** The player context's state a row shares: whose menu is open, the track pending for a playlist, the active page. */
  datatype Shared = Shared(activeMenu: Option<string>, pendingTrack: Option<Track>, activePage: string)

  datatype MenuItem = DownloadItem | CopyLinkItem | AddToPlaylistItem

  /** The effect a menu action has outside the player context. */
  datatype Effect =
    | NoEffect
    | DownloadTrack(url: string, title: string, artist: string)
    | CopyToClipboard(url: string)

  /** The row's menu is open exactly when the open menu is its track's. */
  predicate ShowMenu(sh: Shared, track: Track) {
    sh.activeMenu == Some(track.id)
  }

  /** The menu's items: download and copy always, add-to-playlist unless hidden. */
  function MenuItems(p: Props): (items: seq<MenuItem>)
    ensures DownloadItem in items && CopyLinkItem in items
    ensures AddToPlaylistItem in items <==> !p.hidePlaylistMenu
  {
    [DownloadItem, CopyLinkItem] + (if p.hidePlaylistMenu then [] else [AddToPlaylistItem])
  }

  /** A right click opens this row's menu. */
  function RightClick(sh: Shared, track: Track): (r: Shared)
    ensures r == sh.(activeMenu := Some(track.id))
  {
    sh.(activeMenu := Some(track.id))
  }

  /** A click elsewhere while this row's menu is open closes it. */
  function ClickOutside(sh: Shared, track: Track): (r: Shared)
    ensures ShowMenu(sh, track) ==> r == sh.(activeMenu := None)
    ensures !ShowMenu(sh, track) ==> r == sh
  {
    if ShowMenu(sh, track) then sh.(activeMenu := None) else sh
  }

  /**
   * Choosing a menu item closes the menu; download asks for the row's link
   * with its title and artist, copy puts the link on the clipboard, and
   * add-to-playlist makes the track pending and opens the playlists page.
   */
  function Choose(sh: Shared, p: Props, item: MenuItem): (Shared, Effect) {
    var closed := sh.(activeMenu := None);
    match item
    case DownloadItem => (closed, DownloadTrack(Link(p.track), p.track.title, p.track.user.username))
    case CopyLinkItem => (closed, CopyToClipboard(Link(p.track)))
    case AddToPlaylistItem => (closed.(pendingTrack := Some(p.track), activePage := "playlists"), NoEffect)
  }

  /**
   * At most one row's menu is open: a right click opens it for the rows with
   * that id and no other; any chosen item leaves no menu open, and only
   * add-to-playlist touches the pending track and the page.
   */
  lemma MenuSpec(sh: Shared, p: Props, item: MenuItem, other: Track)
    ensures ShowMenu(RightClick(sh, p.track), other) <==> other.id == p.track.id
    ensures var (sh', effect) := Choose(sh, p, item);
      && !ShowMenu(sh', other)
      && (item != AddToPlaylistItem ==> sh'.pendingTrack == sh.pendingTrack && sh'.activePage == sh.activePage)
      && (item == AddToPlaylistItem ==> sh'.pendingTrack == Some(p.track) && sh'.activePage == "playlists" && effect == NoEffect)
      && (item != AddToPlaylistItem ==> effect != NoEffect && (effect.DownloadTrack? || effect.CopyToClipboard?) && effect.url == Link(p.track))
  {
  }

  // ---- like button ----

  /** A like click toggles the row's track in the row's likes context. */
  function LikeClick(likes: map<string, seq<string>>, p: Props): map<string, seq<string>> {
    PlayerContext.ToggleLike(likes, p.track.id, LikeContext(p))
  }

  /** The row's heart: whether the track is liked in the row's context. */
  function IsLiked(likes: map<string, seq<string>>, p: Props): bool {
    PlayerContext.IsTrackLiked(likes, p.track.id, LikeContext(p))
  }

  /** A like click flips the row's heart and no other track's, in this context or any other. */
  lemma LikeClickFlips(likes: map<string, seq<string>>, p: Props)
    requires MyWave.NoDups(PlayerContext.ContextLikes(likes, LikeContext(p)))
    ensures IsLiked(LikeClick(likes, p), p) == !IsLiked(likes, p)
    ensures forall q: Props :: q.track.id != p.track.id || LikeContext(q) != LikeContext(p) ==>
      IsLiked(LikeClick(likes, p), q) == IsLiked(likes, q)
  {
    PlayerContext.ToggleLikeFlips(likes, p.track.id, LikeContext(p));
  }
}
