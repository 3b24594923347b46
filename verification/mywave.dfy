/**
 * "My Wave": a personal queue built from the artists whose tracks were
 * played. Played artists' ids are kept in a duplicate-free stored list; the
 * queue builder fetches each stored artist's tracks, collects records up to
 * a limit, removes duplicates by track id, shuffles with Fisher–Yates and
 * maps the records into the player's track shape.
 *
 * Browser storage is a value (`None` when the key is absent or its text is
 * not JSON). The catalog requests are an oracle (`Catalog`), and the random
 * index of each shuffle step is a nondeterministic choice.
 */
module MyWave {
  import opened Wrappers
  import opened Text
  import opened Media
  import opened SoundCloud

  predicate NoDups<T(==)>(xs: seq<T>) {
    forall i, j :: 0 <= i < j < |xs| ==> xs[i] != xs[j]
  }

  // ---- the artist-id store ----

  /** The id as it is stored: a string of decimal digits becomes the number it spells. */
  function NormalizeId(id: Scalar): (r: Scalar)
    ensures r.Num? || r == id
    ensures id.Num? ==> r == id
    ensures id.Str? && id.s != "" && AllDigits(id.s) ==> r.Num? && r.n == ParseDecimal(id.s)
    ensures id.Str? && !(id.s != "" && AllDigits(id.s)) ==> r == id
  {
    if id.Str? && id.s != "" && AllDigits(id.s) then Num(ParseDecimal(id.s)) else id
  }

  /** The stored list as the store reads it: absent or unparsable text is the empty list. */
  function StoredIds(stored: Option<seq<Scalar>>): seq<Scalar> {
    stored.GetOr([])
  }

  /**
   * `storeArtistId`: a falsy id changes nothing; otherwise the normalised id is
   * appended unless it is already listed, in which case the store is not written.
   */
  function StoreArtistId(stored: Option<seq<Scalar>>, id: Scalar): (r: Option<seq<Scalar>>)
    ensures !id.Truthy() ==> r == stored
    ensures id.Truthy() && NormalizeId(id) in StoredIds(stored) ==> r == stored
    ensures id.Truthy() ==> r.Some? && NormalizeId(id) in r.value
    ensures id.Truthy() && NormalizeId(id) !in StoredIds(stored) ==> r == Some(StoredIds(stored) + [NormalizeId(id)])
  {
    if !id.Truthy() then stored
    else
      var v := NormalizeId(id);
      var arr := StoredIds(stored);
      if v in arr then stored else Some(arr + [v])
  }

  /** Storing keeps the list duplicate-free and never reorders or drops what was there. */
  lemma StoreArtistIdKeepsNoDups(stored: Option<seq<Scalar>>, id: Scalar)
    requires NoDups(StoredIds(stored))
    ensures var after := StoredIds(StoreArtistId(stored, id));
      && NoDups(after)
      && |StoredIds(stored)| <= |after| <= |StoredIds(stored)| + 1
      && after[..|StoredIds(stored)|] == StoredIds(stored)
  {
    var after := StoredIds(StoreArtistId(stored, id));
    assert after[..|StoredIds(stored)|] == StoredIds(stored);
  }

  /** Storing the same id twice is the same as storing it once. */
  lemma StoreArtistIdIdempotent(stored: Option<seq<Scalar>>, id: Scalar)
    ensures StoreArtistId(StoreArtistId(stored, id), id) == StoreArtistId(stored, id)
  {
  }

  // ---- the queue builder ----

  /** The truthy entries, in order (`filter(Boolean)`). */
  function TruthyIds(ids: seq<Scalar>): (r: seq<Scalar>)
    ensures forall x :: x in r <==> x in ids && x.Truthy()
    ensures |r| <= |ids|
  {
    if ids == [] then []
    else (if ids[0].Truthy() then [ids[0]] else []) + TruthyIds(ids[1..])
  }

  /** The filter keeps order: it distributes over concatenation. */
  lemma {:induction false} TruthyIdsAppend(a: seq<Scalar>, b: seq<Scalar>)
    ensures TruthyIds(a + b) == TruthyIds(a) + TruthyIds(b)
    decreases |a|
  {
    if a == [] {
      assert a + b == b;
    } else {
      TruthyIdsAppend(a[1..], b);
      assert (a + b)[0] == a[0];
      assert (a + b)[1..] == a[1..] + b;
    }
  }

  /** `Array.from(new Set(xs))`: each value once, at the position of its first occurrence. */
  function Distinct<T(==)>(xs: seq<T>): (r: seq<T>)
    decreases |xs|
  {
    if xs == [] then []
    else
      var d := Distinct(xs[..|xs| - 1]);
      if xs[|xs| - 1] in d then d else d + [xs[|xs| - 1]]
  }

  lemma {:induction false} DistinctSpec<T>(xs: seq<T>)
    ensures NoDups(Distinct(xs))
    ensures forall x :: x in Distinct(xs) <==> x in xs
    ensures |Distinct(xs)| <= |xs|
    decreases |xs|
  {
    if xs != [] {
      var init := xs[..|xs| - 1];
      DistinctSpec(init);
      assert xs == init + [xs[|xs| - 1]];
    }
  }

  /** Values first seen in `xs` keep their places when more values follow: `Distinct(xs)` is a prefix of `Distinct(xs + ys)`. */
  lemma {:induction false} DistinctPrefix<T>(xs: seq<T>, ys: seq<T>)
    ensures |Distinct(xs)| <= |Distinct(xs + ys)|
    ensures Distinct(xs + ys)[..|Distinct(xs)|] == Distinct(xs)
    decreases |ys|
  {
    if ys == [] {
      assert xs + ys == xs;
    } else {
      var init := ys[..|ys| - 1];
      DistinctPrefix(xs, init);
      assert (xs + ys)[..|xs + ys| - 1] == xs + init;
      assert (xs + ys)[|xs + ys| - 1] == ys[|ys| - 1];
    }
  }

  /** A catalog reply to the artist-tracks request, by shape. */
  datatype Reply =
    | Failed                                   // the request threw
    | List(items: seq<RawTrack>)               // a bare JSON array
    | Record(collection: Option<seq<RawTrack>>, data: Option<seq<RawTrack>>, tracks: Option<seq<RawTrack>>)

  /** The catalog as the queue builder sees it. */
  datatype Catalog = Catalog(
    /** The reply to `users/<id>/tracks`. */
    userTracks: Scalar -> Reply,
    /** The search results for the artist's name, or `[]` when the lookup finds no name or throws. */
    fallback: Scalar -> seq<RawTrack>,
    /** The detailed record from `tracks/<id>`, or `None` when the request throws. */
    detail: Scalar -> Option<RawTrack>)

  /** The items of a reply: an array as it is, else `collection`, else `data`, else `tracks`, else none. */
  function Normalize(res: Reply): (items: seq<RawTrack>)
    ensures res.Failed? ==> items == []
    ensures res.List? ==> items == res.items
    ensures res.Record? && res.collection.Some? ==> items == res.collection.value
    ensures res.Record? && res.collection.None? && res.data.Some? ==> items == res.data.value
    ensures res.Record? && res.collection.None? && res.data.None? && res.tracks.Some? ==> items == res.tracks.value
    ensures res.Record? && res.collection.None? && res.data.None? && res.tracks.None? ==> items == []
  {
    match res
    case Failed => []
    case List(xs) => xs
    case Record(c, d, t) =>
      if c.Some? then c.value else if d.Some? then d.value else if t.Some? then t.value else []
  }

  /** A record with no media or with an empty transcoding list. */
  predicate LacksMedia(t: RawTrack) {
    t.media.None? || t.media.value == []
  }

  /** The record as pushed: a record lacking media is replaced by its detailed record when that one has an id. */
  function Enrich(cat: Catalog, t: RawTrack): (r: RawTrack)
    ensures r == t || (LacksMedia(t) && t.id.Truthy() && cat.detail(t.id) == Some(r) && r.id.Truthy())
    ensures !LacksMedia(t) || !t.id.Truthy() ==> r == t
    ensures LacksMedia(t) && t.id.Truthy() && cat.detail(t.id).Some? && cat.detail(t.id).value.id.Truthy() ==> r == cat.detail(t.id).value
  {
    if LacksMedia(t) && t.id.Truthy() then
      match cat.detail(t.id)
      case Some(d) => if d.id.Truthy() then d else t
      case None => t
    else t
  }

  /** The items fetched for one artist: the normalised reply, or the name-search fallback when that is empty. */
  function ArtistItems(cat: Catalog, id: Scalar): seq<RawTrack> {
    var items := Normalize(cat.userTracks(id));
    if items == [] && id.Truthy() && cat.fallback(id) != [] then cat.fallback(id) else items
  }

  function EnrichAll(cat: Catalog, items: seq<RawTrack>): (r: seq<RawTrack>)
    ensures |r| == |items| && forall k :: 0 <= k < |items| ==> r[k] == Enrich(cat, items[k])
  {
    seq(|items|, k requires 0 <= k < |items| => Enrich(cat, items[k]))
  }

  /** Every record the builder would push for `ids` if there were no limit, artist by artist. */
  function AllItems(cat: Catalog, ids: seq<Scalar>): seq<RawTrack>
    decreases |ids|
  {
    if ids == [] then [] else AllItems(cat, ids[..|ids| - 1]) + EnrichAll(cat, ArtistItems(cat, ids[|ids| - 1]))
  }

  /** The loops stop right after a push that reaches the limit, so at least one record is kept when there is any. */
  function Cap(limit: nat): nat {
    if limit == 0 then 1 else limit
  }

  function Min(a: nat, b: nat): nat {
    if a <= b then a else b
  }

  /**
   * The records the collection loops keep. A positive limit keeps the first
   * `limit` records of all the artists. A zero limit still pushes one record
   * before the inner test stops it, and the outer test, which is already met,
   * ends the scan after the first artist: at most that artist's first record.
   */
  function Collected(cat: Catalog, ids: seq<Scalar>, limit: nat): seq<RawTrack> {
    var all := AllItems(cat, if limit == 0 then ids[..Min(1, |ids|)] else ids);
    all[..Min(|all|, Cap(limit))]
  }

  /**
   * The kept records begin the records of all the artists; a positive limit
   * keeps `min(limit, total)` of them, and a zero limit keeps only the first
   * artist's first record, none when that artist has none.
   */
  lemma CollectedSpec(cat: Catalog, ids: seq<Scalar>, limit: nat)
    ensures var c := Collected(cat, ids, limit);
      && |c| <= Cap(limit)
      && |c| <= |AllItems(cat, ids)| && AllItems(cat, ids)[..|c|] == c
      && (limit > 0 ==> |c| == Min(|AllItems(cat, ids)|, limit))
      && (limit == 0 ==> (c == [] <==> ids == [] || ArtistItems(cat, ids[0]) == []))
      && (limit == 0 && c != [] ==> c == [Enrich(cat, ArtistItems(cat, ids[0])[0])])
  {
    var n := if limit == 0 then Min(1, |ids|) else |ids|;
    assert ids[..|ids|] == ids;
    AllItemsPrefix(cat, ids, n);
    if limit == 0 && ids != [] {
      FirstArtist(cat, ids);
    }
  }

  /** The records of the first artist alone are its enriched items. */
  lemma FirstArtist(cat: Catalog, ids: seq<Scalar>)
    requires ids != []
    ensures AllItems(cat, ids[..1]) == EnrichAll(cat, ArtistItems(cat, ids[0]))
  {
    assert ids[..1][..0] == [];
  }

  /** The collection loops: push records in order, leaving the inner loop when `limit` is reached and the outer one after an artist that reached it. */
  method Collect(cat: Catalog, ids: seq<Scalar>, limit: nat) returns (results: seq<RawTrack>)
    ensures results == Collected(cat, ids, limit)
    ensures |results| <= Cap(limit)
  {
    results := [];
    var u := 0;
    while u < |ids|
      invariant 0 <= u <= |ids|
      invariant results == AllItems(cat, ids[..u])
      invariant |results| < Cap(limit)
      invariant limit == 0 ==> u == 0
    {
      var userId := ids[u];
      var items := ArtistItems(cat, userId);
      assert ids[..u + 1][..u] == ids[..u];
      ghost var before := results;
      var k := 0;
      while k < |items|
        invariant 0 <= k <= |items|
        invariant results == before + EnrichAll(cat, items)[..k]
        invariant |results| < Cap(limit)
      {
        var t := Enrich(cat, items[k]);
        results := results + [t];
        assert EnrichAll(cat, items)[..k + 1] == EnrichAll(cat, items)[..k] + [t];
        if |results| >= limit {
          if limit > 0 {
            CollectStops(cat, ids, u, limit, before, items, k + 1, results);
          } else {
            FirstArtist(cat, ids);
          }
          return;
        }
        k := k + 1;
      }
      assert EnrichAll(cat, items)[..k] == EnrichAll(cat, items);
      assert AllItems(cat, ids[..u + 1]) == before + EnrichAll(cat, items);
      if |results| >= limit {
        FirstArtist(cat, ids);
        return;
      }
      u := u + 1;
    }
    assert ids[..u] == ids;
    assert results == AllItems(cat, ids);
  }

  /** Leaving early after the `k`-th item of artist `u` keeps exactly the first `Cap(limit)` records. */
  lemma CollectStops(cat: Catalog, ids: seq<Scalar>, u: nat, limit: nat, before: seq<RawTrack>, items: seq<RawTrack>, k: nat, results: seq<RawTrack>)
    requires u < |ids| && items == ArtistItems(cat, ids[u])
    requires before == AllItems(cat, ids[..u])
    requires 0 < k <= |items|
    requires results == before + EnrichAll(cat, items)[..k]
    requires |results| >= limit && |results| - 1 < Cap(limit)
    ensures |results| == Cap(limit)
    ensures results == AllItems(cat, ids)[..Min(|AllItems(cat, ids)|, Cap(limit))]
  {
    assert ids[..u + 1][..u] == ids[..u];
    var e := EnrichAll(cat, items);
    assert AllItems(cat, ids[..u + 1]) == before + e;
    AllItemsPrefix(cat, ids, u + 1);
    PrefixOfPrefix(AllItems(cat, ids), before, e, k);
  }

  /** A prefix of `p + q` that stops inside `q` is a prefix of any sequence `p + q` begins. */
  lemma PrefixOfPrefix<T>(all: seq<T>, p: seq<T>, q: seq<T>, k: nat)
    requires |p + q| <= |all| && all[..|p + q|] == p + q && k <= |q|
    ensures all[..|p| + k] == p + q[..k]
  {
    assert forall j :: 0 <= j < |p| + k ==> all[j] == (p + q)[j];
  }

  /** The records for the first `u` artists are a prefix of the records for all of them. */
  lemma {:induction false} AllItemsPrefix(cat: Catalog, ids: seq<Scalar>, u: nat)
    requires u <= |ids|
    ensures |AllItems(cat, ids[..u])| <= |AllItems(cat, ids)|
    ensures AllItems(cat, ids)[..|AllItems(cat, ids[..u])|] == AllItems(cat, ids[..u])
    decreases |ids| - u
  {
    if u == |ids| {
      assert ids[..u] == ids;
    } else {
      AllItemsPrefix(cat, ids, u + 1);
      assert ids[..u + 1][..u] == ids[..u];
      var all, pre, next := AllItems(cat, ids), AllItems(cat, ids[..u]), AllItems(cat, ids[..u + 1]);
      assert next == pre + EnrichAll(cat, ArtistItems(cat, ids[u]));
      assert all[..|pre|] == all[..|next|][..|pre|] == next[..|pre|] == pre;
    }
  }

  // ---- deduplication through a Map keyed by track id ----

  /** The track ids with a truthy id, in order of first occurrence: the Map's key order. */
  function Keys(rs: seq<RawTrack>): (r: seq<Scalar>)
    ensures forall j :: 0 <= j < |r| ==> r[j].Truthy() && exists i :: 0 <= i < |rs| && rs[i].id == r[j]
    decreases |rs|
  {
    if rs == [] then []
    else
      var init := rs[..|rs| - 1];
      var keys := Keys(init);
      assert forall i :: 0 <= i < |init| ==> rs[i] == init[i];
      var id := rs[|rs| - 1].id;
      if !id.Truthy() || id in keys then keys else keys + [id]
  }

  lemma {:induction false} KeysSpec(rs: seq<RawTrack>)
    ensures NoDups(Keys(rs))
    ensures forall k :: k in Keys(rs) <==> k.Truthy() && exists i :: 0 <= i < |rs| && rs[i].id == k
    decreases |rs|
  {
    if rs != [] {
      var init := rs[..|rs| - 1];
      KeysSpec(init);
      forall k: Scalar | k.Truthy() && exists i :: 0 <= i < |rs| && rs[i].id == k
        ensures k in Keys(rs)
      {
        var i :| 0 <= i < |rs| && rs[i].id == k;
        if i < |rs| - 1 {
          assert init[i] == rs[i];
        }
      }
      forall k | k in Keys(rs)
        ensures exists i :: 0 <= i < |rs| && rs[i].id == k
      {
        if k in Keys(init) {
          var i :| 0 <= i < |init| && init[i].id == k;
          assert rs[i] == init[i];
        }
      }
    }
  }

  /** The last record whose id is `k`: the Map's value for that key. */
  function LastWith(rs: seq<RawTrack>, k: Scalar): (r: RawTrack)
    requires exists i :: 0 <= i < |rs| && rs[i].id == k
    ensures r.id == k
    ensures exists i :: 0 <= i < |rs| && rs[i] == r && forall j :: i < j < |rs| ==> rs[j].id != k
    decreases |rs|
  {
    if rs[|rs| - 1].id == k then rs[|rs| - 1]
    else
      var init := rs[..|rs| - 1];
      assert exists i :: 0 <= i < |init| && init[i].id == k by {
        var i :| 0 <= i < |rs| && rs[i].id == k;
        assert init[i] == rs[i];
      }
      var r := LastWith(init, k);
      ghost var i :| 0 <= i < |init| && init[i] == r && forall j :: i < j < |init| ==> init[j].id != k;
      assert forall j :: i < j < |rs| - 1 ==> rs[j] == init[j];
      assert rs[i] == r && forall j :: i < j < |rs| ==> rs[j].id != k;
      r
  }

  /** The Map's values in key order: for each key, the last record written under it. */
  function Deduped(results: seq<RawTrack>): seq<RawTrack> {
    var keys := Keys(results);
    seq(|keys|, i requires 0 <= i < |keys| => LastWith(results, keys[i]))
  }

  /** `new Map()` filled by `set(r.id, r)` for records with a truthy id, read back in key order. */
  method DedupeById(results: seq<RawTrack>) returns (uniq: seq<RawTrack>)
    ensures |uniq| == |Keys(results)|
    ensures forall i :: 0 <= i < |uniq| ==> uniq[i] == LastWith(results, Keys(results)[i])
    ensures uniq == Deduped(results)
  {
    var keys: seq<Scalar> := [];
    var m: map<Scalar, RawTrack> := map[];
    var i := 0;
    while i < |results|
      invariant 0 <= i <= |results|
      invariant keys == Keys(results[..i])
      invariant forall k :: k in m <==> k in keys
      invariant forall k :: k in m ==> m[k] == LastWith(results[..i], k)
    {
      var r := results[i];
      assert results[..i + 1][..i] == results[..i];
      assert results[..i + 1][i] == r;
      KeysSpec(results[..i]);
      KeysSpec(results[..i + 1]);
      if r.id.Truthy() {
        if r.id !in m {
          keys := keys + [r.id];
        }
        m := m[r.id := r];
      }
      i := i + 1;
    }
    assert results[..i] == results;
    KeysSpec(results);
    uniq := seq(|keys|, j requires 0 <= j < |keys| => m[keys[j]]);
  }

  /** The deduplicated records carry distinct, truthy ids: exactly the truthy ids of the collected records. */
  lemma DedupeIds(results: seq<RawTrack>, uniq: seq<RawTrack>)
    requires |uniq| == |Keys(results)|
    requires forall i :: 0 <= i < |uniq| ==> uniq[i] == LastWith(results, Keys(results)[i])
    ensures forall i, j :: 0 <= i < j < |uniq| ==> uniq[i].id != uniq[j].id
    ensures forall k: Scalar :: k.Truthy() && (exists i :: 0 <= i < |results| && results[i].id == k) <==> exists i :: 0 <= i < |uniq| && uniq[i].id == k
  {
    KeysSpec(results);
    var keys := Keys(results);
    assert forall i :: 0 <= i < |uniq| ==> uniq[i].id == keys[i];
    forall k: Scalar | k.Truthy() && (exists i :: 0 <= i < |results| && results[i].id == k)
      ensures exists i :: 0 <= i < |uniq| && uniq[i].id == k
    {
      var i :| 0 <= i < |keys| && keys[i] == k;
      assert uniq[i].id == k;
    }
  }

  /** Fisher–Yates: for `i` from the last index down to 1, swap `a[i]` with `a[j]` for a chosen `j` in `[0, i]`. */
  method Shuffle(a: array<RawTrack>)
    modifies a
    ensures multiset(a[..]) == multiset(old(a[..]))
  {
    var i := a.Length - 1;
    while i > 0
      invariant i < a.Length
      invariant multiset(a[..]) == multiset(old(a[..]))
    {
      var j :| 0 <= j <= i;
      a[i], a[j] := a[j], a[i];
      i := i - 1;
    }
  }

  /** The output mapping; it throws (`None`) when a record has no user. */
  function ToTracks(rs: seq<RawTrack>): (r: Option<seq<Track>>)
    ensures r.Some? <==> forall k :: 0 <= k < |rs| ==> rs[k].user.Some?
    ensures r.Some? ==> |r.value| == |rs| && forall k :: 0 <= k < |rs| ==> rs[k].user.Some? && r.value[k] == ToTrack(rs[k])
  {
    if rs == [] then Some([])
    else if rs[0].user.None? then None
    else
      match ToTracks(rs[1..])
      case None => None
      case Some(rest) => Some([ToTrack(rs[0])] + rest)
  }

  /** `t` is the mapping of one of `recs` that has a truthy id and a user. */
  ghost predicate MappedFrom(t: Track, recs: seq<RawTrack>) {
    exists i :: 0 <= i < |recs| && recs[i].id.Truthy() && recs[i].user.Some? && t == ToTrack(recs[i])
  }

  /** `r` is the mapping of `min(limit, |d|)` of the records `d`, none taken twice. */
  ghost predicate QueueOf(r: Option<seq<Track>>, d: seq<RawTrack>, limit: nat) {
    exists kept: seq<RawTrack> :: multiset(kept) <= multiset(d) && |kept| == Min(limit, |d|) && r == ToTracks(kept)
  }

  /**
   * `getMyWaveQueue(limit)`: `None` when the promise rejects (a kept record has
   * no user). The result maps `min(limit, n)` of the `n` deduplicated
   * collected records, taken without repetition (a prefix of a permutation),
   * so all of them when `limit` covers them; each track is the mapping of a
   * collected record with a truthy id and a user.
   */
  method GetMyWaveQueue(stored: Option<seq<Scalar>>, limit: nat, cat: Catalog) returns (r: Option<seq<Track>>)
    ensures Distinct(TruthyIds(StoredIds(stored))) == [] ==> r == Some([])
    ensures QueueOf(r, Deduped(Collected(cat, Distinct(TruthyIds(StoredIds(stored))), limit)), limit)
    ensures r.Some? ==> |r.value| == Min(limit, |Deduped(Collected(cat, Distinct(TruthyIds(StoredIds(stored))), limit))|)
    ensures r.Some? ==> |r.value| <= limit
    ensures r.Some? ==> forall t :: t in r.value ==> MappedFrom(t, AllItems(cat, Distinct(TruthyIds(StoredIds(stored)))))
  {
    var ids := Distinct(TruthyIds(StoredIds(stored)));
    if ids == [] {
      assert Keys([]) == [];
      assert Deduped(Collected(cat, ids, limit)) == [];
      ghost var none: seq<RawTrack> := [];
      assert multiset(none) <= multiset(Deduped(Collected(cat, ids, limit))) && Some([]) == ToTracks(none);
      assert QueueOf(Some([]), Deduped(Collected(cat, ids, limit)), limit);
      return Some([]);
    }
    var results := Collect(cat, ids, limit);
    var uniq := DedupeById(results);
    var a := new RawTrack[|uniq|](k requires 0 <= k < |uniq| => uniq[k]);
    assert a[..] == uniq;
    Shuffle(a);
    r := ToTracks(a[..Min(limit, a.Length)]);
    QueueShape(uniq, a[..], limit, r);
    if r.Some? {
      CollectedSpec(cat, ids, limit);
      DedupeFrom(results, uniq);
      QueueMapped(results, uniq, a[..], Min(limit, a.Length), AllItems(cat, ids), r.value);
    }
  }

  /**
   * Taking `min(limit, n)` records from a permutation of `n` records and
   * mapping them gives a queue of those records.
   */
  lemma QueueShape(uniq: seq<RawTrack>, shuffled: seq<RawTrack>, limit: nat, r: Option<seq<Track>>)
    requires multiset(shuffled) == multiset(uniq)
    requires r == ToTracks(shuffled[..Min(limit, |shuffled|)])
    ensures QueueOf(r, uniq, limit)
    ensures r.Some? ==> |r.value| == Min(limit, |uniq|)
  {
    var m := Min(limit, |shuffled|);
    var kept := shuffled[..m];
    assert |shuffled| == |uniq| by {
      assert |multiset(shuffled)| == |multiset(uniq)|;
    }
    assert shuffled == kept + shuffled[m..];
    assert multiset(kept) <= multiset(uniq);
  }

  /**
   * The tracks mapped from a prefix of a permutation of the deduplicated
   * records are each mapped from a collected record with a truthy id.
   */
  lemma QueueMapped(results: seq<RawTrack>, uniq: seq<RawTrack>, shuffled: seq<RawTrack>, m: nat, all: seq<RawTrack>, ts: seq<Track>)
    requires |results| <= |all| && results == all[..|results|]
    requires forall x :: x in uniq ==> x.id.Truthy() && x in results
    requires multiset(shuffled) == multiset(uniq) && m <= |shuffled|
    requires ToTracks(shuffled[..m]) == Some(ts)
    ensures forall t :: t in ts ==> MappedFrom(t, all)
  {
    var kept := shuffled[..m];
    forall t | t in ts
      ensures MappedFrom(t, all)
    {
      var k :| 0 <= k < |ts| && ts[k] == t;
      var x := kept[k];
      assert x in shuffled;
      assert x in multiset(uniq);
      var i :| 0 <= i < |results| && results[i] == x;
      assert all[i] == x;
    }
  }

  /** Every deduplicated record is a collected record with a truthy id. */
  lemma DedupeFrom(results: seq<RawTrack>, uniq: seq<RawTrack>)
    requires |uniq| == |Keys(results)|
    requires forall i :: 0 <= i < |uniq| ==> uniq[i] == LastWith(results, Keys(results)[i])
    ensures forall x :: x in uniq ==> x.id.Truthy() && x in results
  {
    forall x | x in uniq
      ensures x.id.Truthy() && x in results
    {
      var u :| 0 <= u < |uniq| && uniq[u] == x;
      var rec := LastWith(results, Keys(results)[u]);
      var i :| 0 <= i < |results| && results[i] == rec && forall j :: i < j < |results| ==> results[j].id != Keys(results)[u];
    }
  }
}
