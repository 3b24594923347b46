/**
 * The player context: the playback session (current track, queue and index,
 * shuffle and repeat, loading and playing flags), the recently played list,
 * per-context likes, per-playlist shuffle and repeat settings, the user's
 * playlists and the playlist-download progress.
 *
 * The state updaters that copy and return a new value are functions; the
 * session is a class whose methods update its fields. The audio element is a
 * flag (`hasAudio`) plus the source it was given; whether `play()` starts is
 * a parameter. `Math.random` in the shuffle redraw loop is a choice of an
 * index that satisfies the loop's exit condition.
 */
module PlayerContext {
  import opened Wrappers
  import opened Text
  import opened Media
  import opened SoundCloud
  import opened MyWave
  import Downloads

  // ---- order-preserving removal ----

  /** `b` contains the elements of `a` in the same relative order. */
  predicate IsSubseq<T(==)>(a: seq<T>, b: seq<T>)
    decreases |b|
  {
    if a == [] then true
    else if b == [] then false
    else if a[0] == b[0] then IsSubseq(a[1..], b[1..])
    else IsSubseq(a, b[1..])
  }

  lemma {:induction false} SubseqPrefix<T>(a: seq<T>, b: seq<T>, n: nat)
    requires IsSubseq(a, b) && n <= |a|
    ensures IsSubseq(a[..n], b)
    decreases |b|
  {
    if n > 0 && b != [] {
      if a[0] == b[0] {
        SubseqPrefix(a[1..], b[1..], n - 1);
        assert a[1..][..n - 1] == a[..n][1..];
      } else {
        SubseqPrefix(a, b[1..], n);
      }
    }
  }

  /** `ts.filter(t => t.id !== id)`. */
  function Without(ts: seq<Track>, id: string): (r: seq<Track>)
    ensures forall t :: t in r <==> t in ts && t.id != id
    ensures |r| <= |ts|
  {
    if ts == [] then []
    else if ts[0].id != id then [ts[0]] + Without(ts[1..], id)
    else Without(ts[1..], id)
  }

  /** Filtering keeps the remaining tracks in order, keeps ids unique, and changes nothing when the id is absent. */
  lemma WithoutSpec(ts: seq<Track>, id: string)
    ensures IsSubseq(Without(ts, id), ts)
    ensures UniqueIds(ts) ==> UniqueIds(Without(ts, id))
    ensures !HasId(ts, id) ==> Without(ts, id) == ts
  {
    WithoutOrdered(ts, id);
    if UniqueIds(ts) {
      WithoutUnique(ts, id);
    }
    if !HasId(ts, id) {
      WithoutAbsent(ts, id);
    }
  }

  /**
   * The filter keeps each other track as often as it is listed, in order: it
   * distributes over concatenation, and one track is kept exactly when its id
   * differs.
   */
  lemma {:induction false} WithoutConcat(a: seq<Track>, b: seq<Track>, id: string)
    ensures Without(a + b, id) == Without(a, id) + Without(b, id)
    ensures forall t :: Without([t], id) == if t.id != id then [t] else []
  {
    forall t
      ensures Without([t], id) == if t.id != id then [t] else []
    {
      assert [t][1..] == [];
    }
    if a != [] {
      assert (a + b)[0] == a[0];
      assert (a + b)[1..] == a[1..] + b;
      WithoutConcat(a[1..], b, id);
    } else {
      assert a + b == b;
    }
  }

  lemma {:induction false} WithoutOrdered(ts: seq<Track>, id: string)
    ensures IsSubseq(Without(ts, id), ts)
  {
    if ts != [] {
      WithoutOrdered(ts[1..], id);
      if ts[0].id != id {
        var rest := Without(ts[1..], id);
        assert ([ts[0]] + rest)[1..] == rest;
      }
    }
  }

  lemma {:induction false} WithoutUnique(ts: seq<Track>, id: string)
    requires UniqueIds(ts)
    ensures UniqueIds(Without(ts, id))
  {
    if ts != [] {
      assert UniqueIds(ts[1..]);
      WithoutUnique(ts[1..], id);
      var rest := Without(ts[1..], id);
      if ts[0].id != id {
        forall k | 0 <= k < |rest|
          ensures rest[k].id != ts[0].id
        {
          assert rest[k] in ts[1..];
        }
      }
    }
  }

  lemma {:induction false} WithoutAbsent(ts: seq<Track>, id: string)
    requires !HasId(ts, id)
    ensures Without(ts, id) == ts
  {
    if ts != [] {
      assert !HasId(ts[1..], id);
      WithoutAbsent(ts[1..], id);
    }
  }

  // ---- recently played ----

  const RecentLimit := 10

  /** The recents updater: the played track first, then the earlier entries without it, at most ten in all. */
  function PushRecent(prev: seq<Track>, track: Track): (r: seq<Track>)
    ensures 1 <= |r| <= RecentLimit && r[0] == track
    ensures forall k :: 1 <= k < |r| ==> r[k].id != track.id && r[k] in prev
    ensures |r| == Min(RecentLimit, 1 + |Without(prev, track.id)|)
    ensures r[1..] == Without(prev, track.id)[..|r| - 1]
  {
    var all := [track] + Without(prev, track.id);
    all[..Min(RecentLimit, |all|)]
  }

  /** The other entries keep their relative order and ids stay unique. */
  lemma PushRecentSpec(prev: seq<Track>, track: Track)
    ensures IsSubseq(PushRecent(prev, track)[1..], prev)
    ensures UniqueIds(prev) ==> UniqueIds(PushRecent(prev, track))
  {
    var w := Without(prev, track.id);
    var r := PushRecent(prev, track);
    WithoutSpec(prev, track.id);
    assert r[1..] == w[..|r| - 1];
    SubseqPrefix(w, prev, |r| - 1);
    if UniqueIds(prev) {
      forall i, j | 0 <= i < j < |r|
        ensures r[i].id != r[j].id
      {
        if i > 0 {
          assert r[i] == w[i - 1] && r[j] == w[j - 1];
        }
      }
    }
  }

  /** Playing the same track twice in a row leaves the same recents as playing it once. */
  lemma PushRecentIdempotent(prev: seq<Track>, track: Track)
    ensures PushRecent(PushRecent(prev, track), track) == PushRecent(prev, track)
  {
    var r := PushRecent(prev, track);
    var tail := r[1..];
    forall k | 0 <= k < |tail|
      ensures tail[k].id != track.id
    {
      assert tail[k] == r[k + 1];
    }
    WithoutAbsent(tail, track.id);
    assert Without(r, track.id) == tail;
    assert [track] + Without(r, track.id) == r;
  }

  // ---- repeat and shuffle settings ----

  /** `off → all → one → off`. */
  function NextRepeat(m: RepeatMode): (r: RepeatMode)
    ensures r != m
  {
    match m
    case Off => All
    case All => One
    case One => Off
  }

  /** Three toggles are the identity. */
  lemma RepeatCycle(m: RepeatMode)
    ensures NextRepeat(NextRepeat(NextRepeat(m))) == m
  {
  }

  /** `togglePlaylistRepeat`: the key's mode advances (a missing key counts as `off`); other keys are untouched. */
  function TogglePlaylistRepeat(modes: map<string, RepeatMode>, id: string): (r: map<string, RepeatMode>)
    ensures id in r && r[id] == NextRepeat(if id in modes then modes[id] else Off)
    ensures forall k :: k != id ==> (k in r <==> k in modes)
    ensures forall k :: k != id && k in modes ==> r[k] == modes[k]
  {
    modes[id := NextRepeat(if id in modes then modes[id] else Off)]
  }

  /** `togglePlaylistShuffle`: the key's flag is negated (a missing key counts as `false`); other keys are untouched. */
  function TogglePlaylistShuffle(flags: map<string, bool>, id: string): (r: map<string, bool>)
    ensures id in r && r[id] == !(id in flags && flags[id])
    ensures forall k :: k != id ==> (k in r <==> k in flags)
    ensures forall k :: k != id && k in flags ==> r[k] == flags[k]
  {
    flags[id := !(id in flags && flags[id])]
  }

  // ---- likes ----

  /** `likedTracks[context] || []`. */
  function ContextLikes(likes: map<string, seq<string>>, context: string): seq<string> {
    if context in likes then likes[context] else []
  }

  /** `isTrackLiked`. */
  function IsTrackLiked(likes: map<string, seq<string>>, trackId: string, context: string): bool {
    trackId in ContextLikes(likes, context)
  }

  /** `list.indexOf(x)`: the first position of `x`, or -1. */
  function IndexOfId(list: seq<string>, x: string): (r: int)
    ensures -1 <= r < |list|
    ensures r >= 0 ==> list[r] == x && x !in list[..r]
    ensures r == -1 <==> x !in list
  {
    if list == [] then -1
    else if list[0] == x then 0
    else
      var r := IndexOfId(list[1..], x);
      assert r >= 0 ==> list[1..][..r] == list[1..r + 1];
      if r == -1 then -1 else r + 1
  }

  /**
   * `toggleLike`: the id's first occurrence in the context's list is removed,
   * or the id is appended when absent; an emptied list deletes the key. Other
   * contexts are untouched.
   */
  function ToggleLike(likes: map<string, seq<string>>, trackId: string, context: string): (r: map<string, seq<string>>)
    ensures r - {context} == likes - {context}
    ensures context in r ==> r[context] != []
    ensures trackId in ContextLikes(likes, context) ==>
      multiset(ContextLikes(r, context)) == multiset(ContextLikes(likes, context)) - multiset{trackId}
    ensures trackId !in ContextLikes(likes, context) ==>
      ContextLikes(r, context) == ContextLikes(likes, context) + [trackId]
  {
    var list := ContextLikes(likes, context);
    var updated := Toggled(list, trackId);
    var r := if updated == [] then likes - {context} else likes[context := updated];
    assert ContextLikes(r, context) == updated;
    r
  }

  /** The context's list after the toggle: the first occurrence removed, or the id appended. */
  function Toggled(list: seq<string>, trackId: string): (u: seq<string>)
    ensures trackId in list ==> multiset(u) == multiset(list) - multiset{trackId}
    ensures trackId in list ==>
      exists i :: 0 <= i < |list| && list[i] == trackId && trackId !in list[..i] && u == list[..i] + list[i + 1..]
    ensures trackId !in list ==> u == list + [trackId]
  {
    var i := IndexOfId(list, trackId);
    if i == -1 then list + [trackId]
    else
      assert list == list[..i] + [list[i]] + list[i + 1..];
      list[..i] + list[i + 1..]
  }

  /** On a duplicate-free list, toggling flips exactly that id's liked status and keeps the list duplicate-free. */
  lemma ToggleLikeFlips(likes: map<string, seq<string>>, trackId: string, context: string)
    requires NoDups(ContextLikes(likes, context))
    ensures var r := ToggleLike(likes, trackId, context);
      && IsTrackLiked(r, trackId, context) == !IsTrackLiked(likes, trackId, context)
      && (forall other :: other != trackId ==> IsTrackLiked(r, other, context) == IsTrackLiked(likes, other, context))
      && (forall c, other :: c != context ==> IsTrackLiked(r, other, c) == IsTrackLiked(likes, other, c))
      && NoDups(ContextLikes(r, context))
  {
    var list := ContextLikes(likes, context);
    var r := ToggleLike(likes, trackId, context);
    assert ContextLikes(r, context) == Toggled(list, trackId);
    ToggledFlips(list, trackId);
    forall c | c != context
      ensures ContextLikes(r, c) == ContextLikes(likes, c)
    {
      assert c in r <==> c in r - {context};
      assert c in likes <==> c in likes - {context};
      assert c in r ==> r[c] == (r - {context})[c];
      assert c in likes ==> likes[c] == (likes - {context})[c];
    }
  }

  /** On a duplicate-free list, `Toggled` flips exactly the id's membership and keeps the list duplicate-free. */
  lemma ToggledFlips(list: seq<string>, trackId: string)
    requires NoDups(list)
    ensures var u := Toggled(list, trackId);
      && (trackId in u <==> trackId !in list)
      && (forall other :: other != trackId ==> (other in u <==> other in list))
      && NoDups(u)
  {
    if trackId in list {
      var i := IndexOfId(list, trackId);
      assert Toggled(list, trackId) == list[..i] + list[i + 1..];
      RemoveAtSpec(list, i);
    } else {
      assert Toggled(list, trackId) == list + [trackId];
    }
  }

  /** Removing position `i` from a duplicate-free list removes exactly that value. */
  lemma RemoveAtSpec(list: seq<string>, i: nat)
    requires NoDups(list) && i < |list|
    ensures var rest := list[..i] + list[i + 1..];
      && NoDups(rest)
      && forall x :: x in rest <==> x in list && x != list[i]
  {
    var rest := list[..i] + list[i + 1..];
    assert forall k :: 0 <= k < |rest| ==> rest[k] == list[if k < i then k else k + 1];
    forall x | x in list && x != list[i]
      ensures x in rest
    {
      var k :| 0 <= k < |list| && list[k] == x;
      assert rest[if k < i then k else k - 1] == x;
    }
  }

  /** In a duplicate-free list, a listed value occurs once. */
  lemma CountOne(list: seq<string>, i: nat)
    requires NoDups(list) && i < |list|
    ensures multiset(list)[list[i]] == 1
  {
    assert list == list[..i] + [list[i]] + list[i + 1..];
    assert list[i] !in list[..i];
    assert list[i] !in list[i + 1..];
  }

  // ---- playlists ----

  /** `createPlaylist`: a new empty playlist whose id is the creation time in milliseconds, appended. */
  function CreatePlaylist(ps: seq<Playlist>, now: nat, name: string): (r: seq<Playlist>)
    ensures |r| == |ps| + 1 && r[..|ps|] == ps
    ensures r[|ps|].tracks == [] && r[|ps|].name == name && r[|ps|].id == Decimal(now)
  {
    ps + [Playlist(Decimal(now), name, [])]
  }

  /** `deletePlaylist`: every playlist with that id is removed, the rest kept in order. */
  function DeletePlaylist(ps: seq<Playlist>, id: string): (r: seq<Playlist>)
    ensures forall p :: p in r <==> p in ps && p.id != id
    ensures IsSubseq(r, ps)
    ensures (forall p :: p in ps ==> p.id != id) ==> r == ps
  {
    if ps == [] then []
    else if ps[0].id != id then
      assert ([ps[0]] + DeletePlaylist(ps[1..], id))[1..] == DeletePlaylist(ps[1..], id);
      [ps[0]] + DeletePlaylist(ps[1..], id)
    else
      var r := DeletePlaylist(ps[1..], id);
      assert r != [] ==> r[0] != ps[0];
      r
  }

  /**
   * The filter keeps each other playlist as often as it is listed, in order:
   * it distributes over concatenation (and `DeletePlaylistOne` says what it
   * does to one playlist).
   */
  lemma {:induction false} DeletePlaylistConcat(a: seq<Playlist>, b: seq<Playlist>, id: string)
    ensures DeletePlaylist(a + b, id) == DeletePlaylist(a, id) + DeletePlaylist(b, id)
  {
    if a == [] {
      assert a + b == b;
    } else {
      var x, tail := a[0], a[1..];
      var head := if x.id != id then [x] else [];
      SplitHead(a, b);
      DeletePlaylistCons(x, tail + b, id);
      DeletePlaylistCons(x, tail, id);
      DeletePlaylistConcat(tail, b, id);
      ConcatAssoc(head, DeletePlaylist(tail, id), DeletePlaylist(b, id));
    }
  }

  /** Unfolding the filter at its first playlist. */
  lemma DeletePlaylistCons(x: Playlist, tail: seq<Playlist>, id: string)
    ensures DeletePlaylist([x] + tail, id) == (if x.id != id then [x] else []) + DeletePlaylist(tail, id)
  {
    assert ([x] + tail)[0] == x && ([x] + tail)[1..] == tail;
  }

  lemma SplitHead<T>(a: seq<T>, b: seq<T>)
    requires a != []
    ensures a == [a[0]] + a[1..] && a + b == [a[0]] + (a[1..] + b)
  {
  }

  lemma ConcatAssoc<T>(x: seq<T>, y: seq<T>, z: seq<T>)
    ensures x + (y + z) == (x + y) + z
  {
  }

  /** One playlist is kept exactly when its id differs. */
  lemma DeletePlaylistOne(p: Playlist, id: string)
    ensures DeletePlaylist([p], id) == if p.id != id then [p] else []
  {
    assert [p][1..] == [];
  }

  /** `addTrackToPlaylist`: the track is appended to each playlist with that id; the others are unchanged. */
  function AddTrackToPlaylist(ps: seq<Playlist>, id: string, track: Track): (r: seq<Playlist>)
    ensures |r| == |ps|
    ensures forall k :: 0 <= k < |ps| && ps[k].id != id ==> r[k] == ps[k]
    ensures forall k :: 0 <= k < |ps| && ps[k].id == id ==>
      r[k].id == id && r[k].name == ps[k].name && r[k].tracks == ps[k].tracks + [track]
  {
    seq(|ps|, k requires 0 <= k < |ps| =>
      if ps[k].id == id then ps[k].(tracks := ps[k].tracks + [track]) else ps[k])
  }

  /** `removeTrackFromPlaylist`: every track with that id leaves each playlist with that id; the others are unchanged. */
  function RemoveTrackFromPlaylist(ps: seq<Playlist>, id: string, trackId: string): (r: seq<Playlist>)
    ensures |r| == |ps|
    ensures forall k :: 0 <= k < |ps| && ps[k].id != id ==> r[k] == ps[k]
    ensures forall k :: 0 <= k < |ps| && ps[k].id == id ==>
      r[k].id == id && r[k].name == ps[k].name && r[k].tracks == Without(ps[k].tracks, trackId)
  {
    seq(|ps|, k requires 0 <= k < |ps| =>
      if ps[k].id == id then ps[k].(tracks := Without(ps[k].tracks, trackId)) else ps[k])
  }

  lemma {:induction false} WithoutAppend(ts: seq<Track>, t: Track)
    ensures Without(ts + [t], t.id) == Without(ts, t.id)
  {
    if ts == [] {
      assert Without([t][1..], t.id) == [];
    } else {
      assert (ts + [t])[1..] == ts[1..] + [t];
      WithoutAppend(ts[1..], t);
    }
  }

  /** Removing a track just added undoes the addition, up to copies of that id already listed. */
  lemma RemoveAfterAdd(ps: seq<Playlist>, id: string, track: Track)
    ensures RemoveTrackFromPlaylist(AddTrackToPlaylist(ps, id, track), id, track.id) == RemoveTrackFromPlaylist(ps, id, track.id)
    ensures (forall k :: 0 <= k < |ps| && ps[k].id == id ==> !HasId(ps[k].tracks, track.id)) ==>
      RemoveTrackFromPlaylist(AddTrackToPlaylist(ps, id, track), id, track.id) == ps
  {
    var added := AddTrackToPlaylist(ps, id, track);
    forall k | 0 <= k < |ps| && ps[k].id == id
      ensures Without(added[k].tracks, track.id) == Without(ps[k].tracks, track.id)
    {
      WithoutAppend(ps[k].tracks, track);
    }
    if forall k :: 0 <= k < |ps| && ps[k].id == id ==> !HasId(ps[k].tracks, track.id) {
      forall k | 0 <= k < |ps| && ps[k].id == id
        ensures Without(ps[k].tracks, track.id) == ps[k].tracks
      {
        WithoutSpec(ps[k].tracks, track.id);
      }
    }
  }

  // ---- next and previous ----

  datatype Direction = Forward | Backward

  /** The shuffle redraw loop's exit condition: an index of the queue, other than the current one unless the queue has one entry. */
  predicate AcceptableDraw(len: nat, cur: int, draw: int) {
    0 <= draw < len && !(draw == cur && len > 1)
  }

  /**
   * The index `nextTrack` (`Forward`) or `prevTrack` (`Backward`) plays, or
   * `None` when it returns without playing. `draw` is the shuffle draw.
   */
  function Step(dir: Direction, len: nat, cur: int, repeat: RepeatMode, shuffle: bool, draw: int): Option<int> {
    if len == 0 || cur == -1 then None
    else if repeat == One then Some(cur)
    else if shuffle then Some(draw)
    else if dir == Forward then
      if cur + 1 >= len then (if repeat == All then Some(0) else None) else Some(cur + 1)
    else
      if cur - 1 < 0 then (if repeat == All then Some(len - 1) else None) else Some(cur - 1)
  }

  /**
   * The choice in each mode: nothing for an empty queue or index -1; the
   * current index under repeat-one; an accepted draw under shuffle, which is
   * 0 for a single track and differs from the current index otherwise.
   */
  lemma StepModes(dir: Direction, len: nat, cur: int, repeat: RepeatMode, shuffle: bool, draw: int)
    ensures len == 0 || cur == -1 ==> Step(dir, len, cur, repeat, shuffle, draw) == None
    ensures len > 0 && cur != -1 && repeat == One ==> Step(dir, len, cur, repeat, shuffle, draw) == Some(cur)
    ensures len > 0 && cur != -1 && repeat != One && shuffle && AcceptableDraw(len, cur, draw) ==>
      var s := Step(dir, len, cur, repeat, shuffle, draw);
      && s.Some? && 0 <= s.value < len
      && (len == 1 ==> s.value == 0)
      && (len > 1 ==> s.value != cur)
  {
  }

  /** From a valid index, every chosen index is in range; only sequential play off the end under repeat-off stops. */
  lemma StepInRange(dir: Direction, len: nat, cur: int, repeat: RepeatMode, shuffle: bool, draw: int)
    requires 0 <= cur < len
    requires shuffle && repeat != One ==> AcceptableDraw(len, cur, draw)
    ensures var s := Step(dir, len, cur, repeat, shuffle, draw);
      && (s.Some? ==> 0 <= s.value < len)
      && (s.None? <==> repeat == Off && !shuffle && (if dir == Forward then cur == len - 1 else cur == 0))
  {
  }

  /** Sequential play under repeat-all: previous undoes next and next undoes previous. */
  lemma StepInverse(len: nat, cur: int)
    requires 0 <= cur < len
    ensures Step(Backward, len, Step(Forward, len, cur, All, false, 0).value, All, false, 0) == Some(cur)
    ensures Step(Forward, len, Step(Backward, len, cur, All, false, 0).value, All, false, 0) == Some(cur)
  {
  }

  /** `k` sequential nexts under repeat-all. */
  function ForwardN(len: nat, cur: int, k: nat): int
    requires 0 <= cur < len
  {
    if k == 0 then cur
    else
      var prev := ForwardN(len, cur, k - 1);
      if 0 <= prev < len then Step(Forward, len, prev, All, false, 0).value else prev
  }

  /** After `k <= len` nexts under repeat-all the index has moved `k` places, wrapping once past the end; after `len` of them it is back at `cur`. */
  lemma {:induction false} ForwardNWraps(len: nat, cur: int, k: nat)
    requires 0 <= cur < len && k <= len
    ensures ForwardN(len, cur, k) == if cur + k < len then cur + k else cur + k - len
    ensures k == len ==> ForwardN(len, cur, k) == cur
  {
    if k > 0 {
      ForwardNWraps(len, cur, k - 1);
    }
  }

  /** The three-track walk-through: from the middle of `[A, B, C]`, next gives C, next again stops (off) or wraps to A (all); previous from A wraps to C. */
  lemma ThreeTrackWalk()
    ensures Step(Forward, 3, 1, Off, false, 0) == Some(2)
    ensures Step(Forward, 3, 2, Off, false, 0) == None
    ensures Step(Forward, 3, 2, All, false, 0) == Some(0)
    ensures Step(Backward, 3, 0, All, false, 0) == Some(2)
    ensures Step(Backward, 3, 0, Off, false, 0) == None
  {
  }

  // ---- download progress ----

  /** The download-progress banner. */
  datatype Progress = Progress(isDownloading: bool, current: nat, total: nat, currentTrack: Option<string>, status: Downloads.Status)

  /** The listener's projection of a `download_progress` event. */
  function Project(e: Downloads.Event): (p: Progress)
    ensures p.isDownloading <==> e.status != Downloads.Completed
    ensures p.current == e.current && p.total == e.total && p.status == e.status && p.currentTrack == e.currentTrack
  {
    Progress(e.status != Downloads.Completed, e.current, e.total, e.currentTrack, e.status)
  }

  /** Over the events of a playlist download, the banner shows a download in progress until the final event, which shows `current == total`. */
  lemma ProjectDownload(tracks: seq<Downloads.JsonTrack>)
    ensures var events := Downloads.PlaylistEvents(tracks);
      && |events| >= 2
      && (forall k :: 0 <= k < |events| - 1 ==> Project(events[k]).isDownloading)
      && var last := Project(events[|events| - 1]); !last.isDownloading && last.current == last.total == |tracks|
  {
    var events := Downloads.PlaylistEvents(tracks);
    Downloads.ProgressEventsSpec(tracks, |tracks|);
    var mid := Downloads.ProgressEvents(tracks, |tracks|);
    assert forall k :: 1 <= k < |events| - 1 ==> events[k] == mid[k - 1];
  }

  // ---- the session ----

  class Session {
    /** An audio element is mounted. */
    var hasAudio: bool
    /** The source given to the audio element. */
    var audioSrc: string
    var currentTrack: Option<Track>
    var isPlaying: bool
    var isLoading: bool
    var currentTime: real
    var volume: real
    var currentQueue: seq<Track>
    /** Not kept in range: it is whatever `playTrack` was given, or -1. */
    var currentIndex: int
    var isShuffleEnabled: bool
    var repeatMode: RepeatMode
    var recentTracks: seq<Track>
    var likedTracks: map<string, seq<string>>
    var playlistShuffle: map<string, bool>
    var playlistRepeat: map<string, RepeatMode>
    var playlists: seq<Playlist>
    /** The stored artist ids used by My Wave. */
    var artistStore: Option<seq<Scalar>>
    var downloadProgress: Option<Progress>
    /** The catalog client that resolves stream URLs. */
    const client: CatalogClient

    ghost predicate Valid()
      reads this, client
    {
      client.Valid()
    }

    constructor (hasAudio: bool, client: CatalogClient, artistStore: Option<seq<Scalar>>)
      requires client.Valid()
      ensures Valid() && this.client == client
      ensures this.hasAudio == hasAudio && this.artistStore == artistStore
      ensures currentTrack == None && !isPlaying && !isLoading && currentTime == 0.0 && volume == 1.0
      ensures currentQueue == [] && currentIndex == -1 && !isShuffleEnabled && repeatMode == Off
      ensures recentTracks == [] && likedTracks == map[] && playlistShuffle == map[] && playlistRepeat == map[]
      ensures playlists == [] && downloadProgress == None
    {
      this.hasAudio := hasAudio;
      this.client := client;
      this.artistStore := artistStore;
      audioSrc := "";
      currentTrack := None;
      isPlaying := false;
      isLoading := false;
      currentTime := 0.0;
      volume := 1.0;
      currentQueue := [];
      currentIndex := -1;
      isShuffleEnabled := false;
      repeatMode := Off;
      recentTracks := [];
      likedTracks := map[];
      playlistShuffle := map[];
      playlistRepeat := map[];
      playlists := [];
      downloadProgress := None;
    }

    /**
     * The state after `playTrack(track, queue, index)` with an audio element:
     * the track is current, the queue and index are replaced when a queue is
     * given (the index defaulting to the track's first position, -1 if none),
     * the track heads the recents, its artist id is stored, loading is over,
     * and playback runs only if a stream URL was resolved and `play()` started.
     */
    twostate predicate PlayedFrom(track: Track, queue: Option<seq<Track>>, index: Option<int>, new stream: Result<string, CatalogError>, playStarts: bool)
      reads this
    {
      && currentTrack == Some(track)
      && (queue.Some? ==> currentQueue == queue.value && currentIndex == index.GetOr(FindIndex(queue.value, track.id)))
      && (queue.None? ==> currentQueue == old(currentQueue) && currentIndex == old(currentIndex))
      && recentTracks == PushRecent(old(recentTracks), track)
      && artistStore == StoreArtistId(old(artistStore), Str(track.user.id))
      && !isLoading
      && isPlaying == (stream.Ok? && playStarts)
      && audioSrc == (if stream.Ok? then stream.value else old(audioSrc))
    }

    /** `playTrack`: nothing without an audio element; otherwise see `PlayedFrom`. */
    method PlayTrack(track: Track, queue: Option<seq<Track>>, index: Option<int>, web: Web, playStarts: bool)
      returns (stream: Result<string, CatalogError>)
      requires Valid()
      modifies this`currentTrack, this`currentQueue, this`currentIndex, this`recentTracks, this`artistStore,
        this`audioSrc, this`isPlaying, this`isLoading, client
      ensures Valid()
      ensures !old(hasAudio) ==> unchanged(this) && unchanged(client)
      ensures old(hasAudio) ==> PlayedFrom(track, queue, index, stream, playStarts)
      ensures old(hasAudio) ==> (stream, client.State()) == StreamUrl(web, track, old(client.State()))
    {
      if !hasAudio {
        return Err(NoMedia);
      }
      isLoading := true;
      currentTrack := Some(track);
      if queue.Some? {
        currentQueue, currentIndex := queue.value, index.GetOr(FindIndex(queue.value, track.id));
      }
      recentTracks := PushRecent(recentTracks, track);
      artistStore := StoreArtistId(artistStore, Str(track.user.id));
      stream := client.GetStreamUrl(track, web);
      if stream.Ok? {
        audioSrc := stream.value;
        isPlaying := playStarts;
      } else {
        isPlaying := false;
      }
      isLoading := false;
    }

    /**
     * `nextTrack` (`Forward`) and `prevTrack` (`Backward`). `step` is the
     * chosen index (`None`: returned early). A chosen index outside the queue
     * would read past it; the model then changes nothing.
     */
    method Advance(dir: Direction, web: Web, playStarts: bool) returns (draw: int, step: Option<int>)
      requires Valid()
      modifies this`currentTrack, this`currentQueue, this`currentIndex, this`recentTracks, this`artistStore,
        this`audioSrc, this`isPlaying, this`isLoading, client
      ensures Valid()
      ensures step == Step(dir, |old(currentQueue)|, old(currentIndex), old(repeatMode), old(isShuffleEnabled), draw)
      ensures |old(currentQueue)| > 0 && old(currentIndex) != -1 && old(repeatMode) != One && old(isShuffleEnabled) ==>
        AcceptableDraw(|old(currentQueue)|, old(currentIndex), draw)
      ensures step.None? || !(0 <= step.value < |old(currentQueue)|) ==> unchanged(this) && unchanged(client)
      ensures step.Some? && 0 <= step.value < |old(currentQueue)| ==>
        var q := old(currentQueue);
        (!old(hasAudio) ==> unchanged(this) && unchanged(client)) &&
        (old(hasAudio) ==>
          && exists stream :: PlayedFrom(q[step.value], Some(q), Some(step.value), stream, playStarts)
                && (stream, client.State()) == StreamUrl(web, q[step.value], old(client.State())))
    {
      var len := |currentQueue|;
      draw := 0;
      if len > 0 && currentIndex != -1 && repeatMode != One && isShuffleEnabled {
        assert AcceptableDraw(len, currentIndex, if currentIndex == 0 && len > 1 then 1 else 0);
        draw :| AcceptableDraw(len, currentIndex, draw);
      }
      step := Step(dir, len, currentIndex, repeatMode, isShuffleEnabled, draw);
      if step.Some? && 0 <= step.value < len {
        var q := currentQueue;
        var stream := PlayTrack(q[step.value], Some(q), Some(step.value), web, playStarts);
      }
    }

    /** `pauseTrack`. */
    method Pause()
      modifies this`isPlaying
      ensures isPlaying == (old(isPlaying) && !old(hasAudio))
    {
      if hasAudio {
        isPlaying := false;
      }
    }

    /** `resumeTrack`. */
    method Resume()
      modifies this`isPlaying
      ensures isPlaying == (old(isPlaying) || old(hasAudio))
    {
      if hasAudio {
        isPlaying := true;
      }
    }

    /** `seekTo`. */
    method Seek(time: real)
      modifies this`currentTime
      ensures currentTime == if old(hasAudio) then time else old(currentTime)
    {
      if hasAudio {
        currentTime := time;
      }
    }

    /** `setVolume`. */
    method SetVolume(v: real)
      modifies this`volume
      ensures volume == if old(hasAudio) then v else old(volume)
    {
      if hasAudio {
        volume := v;
      }
    }

    /** The `onEnded` handler: playback stops, then `nextTrack` runs. */
    method OnEnded(web: Web, playStarts: bool) returns (draw: int, step: Option<int>)
      requires Valid()
      modifies this`currentTrack, this`currentQueue, this`currentIndex, this`recentTracks, this`artistStore,
        this`audioSrc, this`isPlaying, this`isLoading, client
      ensures Valid()
      ensures step == Step(Forward, |old(currentQueue)|, old(currentIndex), old(repeatMode), old(isShuffleEnabled), draw)
      ensures step.Some? && 0 <= step.value < |old(currentQueue)| && old(hasAudio) ==>
        var q := old(currentQueue);
        exists stream :: PlayedFrom(q[step.value], Some(q), Some(step.value), stream, playStarts)
          && (stream, client.State()) == StreamUrl(web, q[step.value], old(client.State()))
      ensures !(step.Some? && 0 <= step.value < |old(currentQueue)| && old(hasAudio)) ==>
        && !isPlaying
        && currentTrack == old(currentTrack) && currentQueue == old(currentQueue) && currentIndex == old(currentIndex)
        && recentTracks == old(recentTracks) && artistStore == old(artistStore)
        && audioSrc == old(audioSrc) && isLoading == old(isLoading) && unchanged(client)
    {
      isPlaying := false;
      draw, step := Advance(Forward, web, playStarts);
    }

    /** `toggleShuffle`. */
    method ToggleShuffle()
      modifies this`isShuffleEnabled
      ensures isShuffleEnabled == !old(isShuffleEnabled)
    {
      isShuffleEnabled := !isShuffleEnabled;
    }

    /** `toggleRepeat`. */
    method ToggleRepeat()
      modifies this`repeatMode
      ensures repeatMode == NextRepeat(old(repeatMode))
    {
      repeatMode := NextRepeat(repeatMode);
    }

    method TogglePlaylistShuffleOf(id: string)
      modifies this`playlistShuffle
      ensures playlistShuffle == TogglePlaylistShuffle(old(playlistShuffle), id)
    {
      playlistShuffle := TogglePlaylistShuffle(playlistShuffle, id);
    }

    method TogglePlaylistRepeatOf(id: string)
      modifies this`playlistRepeat
      ensures playlistRepeat == TogglePlaylistRepeat(old(playlistRepeat), id)
    {
      playlistRepeat := TogglePlaylistRepeat(playlistRepeat, id);
    }

    method ToggleLikeOf(trackId: string, context: string)
      modifies this`likedTracks
      ensures likedTracks == ToggleLike(old(likedTracks), trackId, context)
    {
      likedTracks := ToggleLike(likedTracks, trackId, context);
    }

    /** `isTrackLiked` against the session's likes. */
    function IsLiked(trackId: string, context: string): bool
      reads this
    {
      IsTrackLiked(likedTracks, trackId, context)
    }

    method CreatePlaylistNamed(name: string, now: nat)
      modifies this`playlists
      ensures playlists == CreatePlaylist(old(playlists), now, name)
    {
      playlists := CreatePlaylist(playlists, now, name);
    }

    method DeletePlaylistWithId(id: string)
      modifies this`playlists
      ensures playlists == DeletePlaylist(old(playlists), id)
    {
      playlists := DeletePlaylist(playlists, id);
    }

    method AddTrackTo(id: string, track: Track)
      modifies this`playlists
      ensures playlists == AddTrackToPlaylist(old(playlists), id, track)
    {
      playlists := AddTrackToPlaylist(playlists, id, track);
    }

    method RemoveTrackFrom(id: string, trackId: string)
      modifies this`playlists
      ensures playlists == RemoveTrackFromPlaylist(old(playlists), id, trackId)
    {
      playlists := RemoveTrackFromPlaylist(playlists, id, trackId);
    }

    /** `playPlaylist`: plays the first track with the playlist as the queue and index 0, only when the playlist has tracks. */
    method PlayPlaylist(p: Playlist, web: Web, playStarts: bool)
      requires Valid()
      modifies this`currentTrack, this`currentQueue, this`currentIndex, this`recentTracks, this`artistStore,
        this`audioSrc, this`isPlaying, this`isLoading, client
      ensures Valid()
      ensures p.tracks == [] || !old(hasAudio) ==> unchanged(this) && unchanged(client)
      ensures p.tracks != [] && old(hasAudio) ==>
        exists stream :: PlayedFrom(p.tracks[0], Some(p.tracks), Some(0), stream, playStarts)
          && (stream, client.State()) == StreamUrl(web, p.tracks[0], old(client.State()))
    {
      if |p.tracks| > 0 {
        var stream := PlayTrack(p.tracks[0], Some(p.tracks), Some(0), web, playStarts);
      }
    }

    /** `downloadPlaylist`: the banner starts at 0 of the track count; a failed command clears it. */
    method StartDownload(trackCount: nat, invokeOk: bool)
      modifies this`downloadProgress
      ensures invokeOk ==> downloadProgress == Some(Progress(true, 0, trackCount, None, Downloads.Starting))
      ensures !invokeOk ==> downloadProgress == None
    {
      downloadProgress := Some(Progress(true, 0, trackCount, None, Downloads.Starting));
      if !invokeOk {
        downloadProgress := None;
      }
    }

    /** The `download_progress` listener. */
    method OnProgress(e: Downloads.Event)
      modifies this`downloadProgress
      ensures downloadProgress == Some(Project(e))
    {
      downloadProgress := Some(Project(e));
    }

    /** The timer set on a `completed` event clears the banner. */
    method ClearProgress()
      modifies this`downloadProgress
      ensures downloadProgress == None
    {
      downloadProgress := None;
    }
  }
}
