/**
 * The home page's cover panels ("For You", "New", "Trend"). Each panel keeps
 * a master queue, a `pointer` to the next queue entry to reveal, two visible
 * slots, a count of right-slot plays and the id last played from it. The
 * three panels follow the same rules and are modelled once.
 */
module HomePage {
  import opened Wrappers
  import opened Text
  import opened Media
  import SoundCloud

  /** The two visible slots. */
  datatype Slots = Slots(left: Option<Track>, right: Option<Track>)

  datatype PanelState = PanelState(
    masterQueue: seq<Track>,
    pointer: nat,
    visible: Slots,
    playedIndex: nat,
    lastPlayedId: Option<string>)

  /** The state a panel starts in. */
  const Initial := PanelState([], 0, Slots(None, None), 0, None)

  /** `queue[i] || null`. */
  function At(queue: seq<Track>, i: int): (r: Option<Track>)
    ensures r.Some? <==> 0 <= i < |queue|
    ensures r.Some? ==> r.value == queue[i]
  {
    if 0 <= i < |queue| then Some(queue[i]) else None
  }

  /** The slot with index `slot` (0 left, 1 right). */
  function Slot(s: PanelState, slot: nat): Option<Track> {
    if slot == 0 then s.visible.left else if slot == 1 then s.visible.right else None
  }

  /**
   * A populate function: a loaded queue replaces the state, showing its
   * first two entries with `pointer` after them; a failed load (`None`)
   * leaves the state as it was.
   */
  function Populate(s: PanelState, loaded: Option<seq<Track>>): (r: PanelState)
    ensures loaded.None? ==> r == s
    ensures loaded.Some? ==>
      && r.masterQueue == loaded.value && r.pointer == 2 && r.playedIndex == 0 && r.lastPlayedId.None?
      && r.visible.left == (if |loaded.value| > 0 then Some(loaded.value[0]) else None)
      && r.visible.right == (if |loaded.value| > 1 then Some(loaded.value[1]) else None)
  {
    match loaded
    case None => s
    case Some(q) => PanelState(q, 2, Slots(At(q, 0), At(q, 1)), 0, None)
  }

  /** `getNextFrom`: the queue entry at `pointer`, if there is one. */
  function GetNextFrom(s: PanelState): (r: Option<Track>)
    ensures r.None? <==> |s.masterQueue| == 0 || s.pointer >= |s.masterQueue|
    ensures r.Some? ==> r.value == s.masterQueue[s.pointer]
  {
    if |s.masterQueue| == 0 then None
    else if s.pointer >= |s.masterQueue| then None
    else Some(s.masterQueue[s.pointer])
  }

  /** The `playTrack` call a slot click issues: the track, the panel's queue, and the track's first position in it. */
  datatype PlayRequest = PlayRequest(track: Track, queue: seq<Track>, index: int)

  /**
   * A slot click as written: an empty slot does nothing; otherwise the track
   * is played from the panel's queue, and a right-slot play shows the track on
   * the left and the entry at `pointer` on the right. `pointer` is not
   * moved.
   */
  function SlotPlay(s: PanelState, slot: nat): (PanelState, Option<PlayRequest>) {
    match Slot(s, slot)
    case None => (s, None)
    case Some(track) =>
      var request := PlayRequest(track, s.masterQueue, FindIndex(s.masterQueue, track.id));
      if slot == 1 then
        (s.(visible := Slots(Some(track), GetNextFrom(s)), playedIndex := s.playedIndex + 1, lastPlayedId := Some(track.id)), Some(request))
      else (s, Some(request))
  }

  /** Clicking an empty slot issues nothing; a left-slot play and any play leave the queue and `pointer` alone. */
  lemma SlotPlaySpec(s: PanelState, slot: nat)
    ensures var (s', req) := SlotPlay(s, slot);
      && (Slot(s, slot).None? ==> s' == s && req.None?)
      && (Slot(s, slot).Some? ==> req.Some? && req.value.track == Slot(s, slot).value && req.value.queue == s.masterQueue)
      && (slot == 0 ==> s' == s)
      && s'.masterQueue == s.masterQueue && s'.pointer == s.pointer
      && (slot == 1 && Slot(s, slot).Some? ==>
            s'.visible == Slots(Slot(s, 1), GetNextFrom(s)) && s'.playedIndex == s.playedIndex + 1
            && s'.lastPlayedId == Some(Slot(s, 1).value.id))
  {
  }

  /**
   * With a queue of at least three entries, two right-slot plays after
   * loading show the third entry in both slots: `pointer` never advanced.
   */
  lemma SlotPlayRepeats(q: seq<Track>)
    requires |q| >= 3
    ensures var s1 := SlotPlay(Populate(Initial, Some(q)), 1).0;
      SlotPlay(s1, 1).0.visible == Slots(Some(q[2]), Some(q[2]))
  {
    var s0 := Populate(Initial, Some(q));
    var s1 := SlotPlay(s0, 1).0;
    assert s1.visible == Slots(Some(q[1]), Some(q[2])) && s1.pointer == 2;
  }

  /** A right-slot play that slides the window: as written, and `pointer` moves past the revealed entry. */
  function SlotPlaySliding(s: PanelState, slot: nat): (PanelState, Option<PlayRequest>) {
    var (s', req) := SlotPlay(s, slot);
    if slot == 1 && req.Some? then (s'.(pointer := s.pointer + 1), req) else (s', req)
  }

  /** The slots show the two queue entries just before `pointer`. */
  predicate Windowed(s: PanelState) {
    s.pointer >= 2 && s.visible == Slots(At(s.masterQueue, s.pointer - 2), At(s.masterQueue, s.pointer - 1))
  }

  /** Loading gives a window, and a sliding play of either slot keeps it. */
  lemma SlidingKeepsWindow(s: PanelState, slot: nat)
    requires Windowed(s)
    ensures Windowed(SlotPlaySliding(s, slot).0)
    ensures Windowed(Populate(Initial, Some(s.masterQueue)))
  {
  }

  /** The panel after the slot clicks `clicks`, in order, with sliding right-slot plays. */
  function Replay(s: PanelState, clicks: seq<nat>): PanelState
    decreases |clicks|
  {
    if clicks == [] then s else Replay(SlotPlaySliding(s, clicks[0]).0, clicks[1..])
  }

  /**
   * With unique ids, however the slots are clicked after loading, the two
   * shown tracks are never the same, and a right-slot play asks for the
   * right slot's own queue position.
   */
  lemma {:induction false} SlidingNeverRepeats(q: seq<Track>, clicks: seq<nat>)
    requires UniqueIds(q)
    ensures var s := Replay(Populate(Initial, Some(q)), clicks);
      && Windowed(s) && s.masterQueue == q
      && (s.visible.left.Some? && s.visible.right.Some? ==> s.visible.left.value.id != s.visible.right.value.id)
      && (s.visible.right.Some? ==> SlotPlay(s, 1).1 == Some(PlayRequest(s.visible.right.value, q, s.pointer - 1)))
  {
    ReplayWindowed(Populate(Initial, Some(q)), clicks);
    WindowDistinct(Replay(Populate(Initial, Some(q)), clicks));
  }

  lemma {:induction false} ReplayWindowed(s: PanelState, clicks: seq<nat>)
    requires Windowed(s)
    ensures Windowed(Replay(s, clicks)) && Replay(s, clicks).masterQueue == s.masterQueue
    decreases |clicks|
  {
    if clicks != [] {
      SlidingKeepsWindow(s, clicks[0]);
      ReplayWindowed(SlotPlaySliding(s, clicks[0]).0, clicks[1..]);
    }
  }

  lemma WindowDistinct(s: PanelState)
    requires Windowed(s) && UniqueIds(s.masterQueue)
    ensures s.visible.left.Some? && s.visible.right.Some? ==> s.visible.left.value.id != s.visible.right.value.id
    ensures s.visible.right.Some? ==> SlotPlay(s, 1).1 == Some(PlayRequest(s.visible.right.value, s.masterQueue, s.pointer - 1))
  {
    if s.visible.right.Some? {
      var q := s.masterQueue;
      var k := FindIndex(q, q[s.pointer - 1].id);
      assert k >= 0;
    }
  }

  /** `getCoverImageUrl`: the logo for an empty slot or missing artwork, else the first `-large` replaced by `-t300x300`. */
  function CoverImageUrl(track: Option<Track>): (r: string)
    ensures track.None? || !Present(track.value.artworkUrl) ==> r == SoundCloud.Logo
    ensures track.Some? && Present(track.value.artworkUrl) ==>
      var a := track.value.artworkUrl.value;
      && ((forall k :: !MatchAt(a, "-large", k)) ==> r == a)
      && (forall k :: MatchAt(a, "-large", k) && (forall j :: 0 <= j < k ==> !MatchAt(a, "-large", j)) ==>
            r == a[..k] + "-t300x300" + a[k + 6..])
  {
    if track.None? || !Present(track.value.artworkUrl) then SoundCloud.Logo
    else ReplaceFirst(track.value.artworkUrl.value, "-large", "-t300x300")
  }
}
