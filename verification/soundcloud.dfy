/**
 * The catalog client: a process-wide cached `client_id` scraped from the
 * catalog's landing page and asset scripts, authenticated requests that
 * re-acquire the credential and retry once on HTTP 401, search-result
 * mapping, the choice of a playable encoding, and two display helpers.
 *
 * HTTP and the two regular-expression scans are an oracle (`Web`). The
 * answer to a request may depend on how many requests were issued before
 * it, so a retried request can be answered differently.
 */
module SoundCloud {
  import opened Wrappers
  import opened Text
  import opened Media

  datatype Response = Response(status: int, body: string)

  /** `response.ok`. */
  predicate IsOk(status: int) { 200 <= status <= 299 }

  datatype Web = Web(
    /** The answer to the request issued after `n` earlier requests. */
    fetch: (nat, string) -> Response,
    /** All asset-script URLs matched on a landing page; `None` when nothing matches. */
    scriptUrls: string -> Option<seq<string>>,
    /** The first `client_id:"…"` capture in a script. */
    clientIdIn: string -> Option<string>,
    /** The `url` field of a JSON body. */
    urlField: string -> string)

  /** A request the client issued, as recorded in its log. */
  datatype Request = LandingPage | Script(url: string) | Api(url: string)

  datatype CatalogError =
    | NoScripts                       // the landing page has no asset-script URL
    | NoClientId                      // no script holds a client_id
    | Http(status: int, body: string) // a non-ok answer from the API
    | NoMedia                         // the track has no transcodings

  /** The client's state: the cached credential and every request issued so far. */
  datatype ClientState = ClientState(clientId: Option<string>, log: seq<Request>)

  const LandingUrl := "https://soundcloud.com"

  /** A cached credential is never empty (the scan pattern requires one character at least). */
  predicate ValidState(s: ClientState) {
    s.clientId.Some? ==> s.clientId.value != ""
  }

  function ScriptRequests(urls: seq<string>): (r: seq<Request>)
    ensures |r| == |urls| && forall k :: 0 <= k < |urls| ==> r[k] == Script(urls[k])
  {
    seq(|urls|, k requires 0 <= k < |urls| => Script(urls[k]))
  }

  lemma ScriptRequestsSnoc(urls: seq<string>, i: nat)
    requires i < |urls|
    ensures ScriptRequests(urls[..i + 1]) == ScriptRequests(urls[..i]) + [Script(urls[i])]
  {
    assert urls[..i + 1] == urls[..i] + [urls[i]];
  }

  /** The credential found in `url` when it is fetched as request number `t`. */
  function TokenAt(web: Web, t: nat, url: string): Option<string> {
    var m := web.clientIdIn(web.fetch(t, url).body);
    if m.Some? && m.value != "" then m else None
  }

  /** The position of the first script, fetched in order from request `t` on, that holds a credential. */
  function FirstToken(web: Web, t: nat, urls: seq<string>): (r: Option<nat>)
    decreases |urls|
    ensures r.Some? ==> r.value < |urls| && TokenAt(web, t + r.value, urls[r.value]).Some?
    ensures r.Some? ==> forall j :: 0 <= j < r.value ==> TokenAt(web, t + j, urls[j]).None?
    ensures r.None? ==> forall j :: 0 <= j < |urls| ==> TokenAt(web, t + j, urls[j]).None?
  {
    if urls == [] then None
    else if TokenAt(web, t, urls[0]).Some? then Some(0)
    else
      var r := FirstToken(web, t + 1, urls[1..]);
      if r.None? then None else Some(r.value + 1)
  }

  lemma FirstTokenIs(web: Web, t: nat, urls: seq<string>, i: nat)
    requires i < |urls| && TokenAt(web, t + i, urls[i]).Some?
    requires forall j :: 0 <= j < i ==> TokenAt(web, t + j, urls[j]).None?
    ensures FirstToken(web, t, urls) == Some(i)
  {
  }

  lemma AcquireFound(web: Web, s: ClientState, urls: seq<string>, j: nat)
    requires s.clientId.None?
    requires web.scriptUrls(web.fetch(|s.log|, LandingUrl).body) == Some(urls)
    requires FirstToken(web, |s.log| + 1, urls) == Some(j)
    ensures j < |urls|
    ensures var token := TokenAt(web, |s.log| + 1 + j, urls[j]);
      token.Some? &&
      Acquire(web, s) == (Ok(token.value), ClientState(token, s.log + [LandingPage] + ScriptRequests(urls[..j + 1])))
  {
    var log1 := s.log + [LandingPage];
    assert |log1| == |s.log| + 1;
    assert Acquire(web, s) == Scan(web, log1, urls);
    ScanFound(web, log1, urls, j);
  }

  lemma AcquireNoScripts(web: Web, s: ClientState)
    requires s.clientId.None?
    requires web.scriptUrls(web.fetch(|s.log|, LandingUrl).body).None?
    ensures Acquire(web, s) == (Err(NoScripts), ClientState(None, s.log + [LandingPage]))
  {
  }

  lemma AcquireNoToken(web: Web, s: ClientState, urls: seq<string>)
    requires s.clientId.None?
    requires web.scriptUrls(web.fetch(|s.log|, LandingUrl).body) == Some(urls)
    requires FirstToken(web, |s.log| + 1, urls).None?
    ensures Acquire(web, s) == (Err(NoClientId), ClientState(None, s.log + [LandingPage] + ScriptRequests(urls)))
  {
    var log1 := s.log + [LandingPage];
    assert Acquire(web, s) == Scan(web, log1, urls);
  }

  lemma FirstTokenNone(web: Web, t: nat, urls: seq<string>)
    requires forall j :: 0 <= j < |urls| ==> TokenAt(web, t + j, urls[j]).None?
    ensures FirstToken(web, t, urls).None?
  {
  }

  /** `fetchAndSetClientId`: the cached credential, or a scan of the landing page's scripts in page order. */
  function Acquire(web: Web, s: ClientState): (Result<string, CatalogError>, ClientState) {
    if s.clientId.Some? then (Ok(s.clientId.value), s)
    else
      var log1 := s.log + [LandingPage];
      match web.scriptUrls(web.fetch(|s.log|, LandingUrl).body)
      case None => (Err(NoScripts), ClientState(None, log1))
      case Some(urls) => Scan(web, log1, urls)
  }

  /** Fetching the scripts in order after the requests in `log`, up to the first that holds a credential. */
  function Scan(web: Web, log: seq<Request>, urls: seq<string>): (Result<string, CatalogError>, ClientState) {
    match FirstToken(web, |log|, urls)
    case None => (Err(NoClientId), ClientState(None, log + ScriptRequests(urls)))
    case Some(j) =>
      var token := TokenAt(web, |log| + j, urls[j]).value;
      (Ok(token), ClientState(Some(token), log + ScriptRequests(urls[..j + 1])))
  }

  lemma ScanFound(web: Web, log: seq<Request>, urls: seq<string>, j: nat)
    requires FirstToken(web, |log|, urls) == Some(j)
    ensures j < |urls|
    ensures var token := TokenAt(web, |log| + j, urls[j]);
      token.Some? && Scan(web, log, urls) == (Ok(token.value), ClientState(token, log + ScriptRequests(urls[..j + 1])))
  {
  }

  /** The scan stops at the first script that holds a credential and caches it. */
  lemma ScanHit(web: Web, log: seq<Request>, urls: seq<string>, i: nat)
    requires i < |urls| && TokenAt(web, |log| + i, urls[i]).Some?
    requires forall j :: 0 <= j < i ==> TokenAt(web, |log| + j, urls[j]).None?
    ensures var token := TokenAt(web, |log| + i, urls[i]);
      Scan(web, log, urls) == (Ok(token.value), ClientState(token, log + ScriptRequests(urls[..i + 1])))
  {
    FirstTokenIs(web, |log|, urls, i);
    ScanFound(web, log, urls, i);
  }

  /** A scan that finds no credential fetches every script. */
  lemma ScanMiss(web: Web, log: seq<Request>, urls: seq<string>)
    requires forall j :: 0 <= j < |urls| ==> TokenAt(web, |log| + j, urls[j]).None?
    ensures Scan(web, log, urls) == (Err(NoClientId), ClientState(None, log + ScriptRequests(urls)))
  {
    FirstTokenNone(web, |log|, urls);
  }

  lemma AcquireSpec(web: Web, s: ClientState)
    requires ValidState(s)
    ensures var (r, s') := Acquire(web, s);
      && ValidState(s')
      && (r.Ok? <==> s'.clientId.Some?)
      && (r.Ok? ==> s'.clientId == Some(r.value))
      && (r.Err? ==> r.error == NoScripts || r.error == NoClientId)
      && |s'.log| >= |s.log| && s'.log[..|s.log|] == s.log
      && ApiCount(s'.log) == ApiCount(s.log)
      && (s.clientId.Some? ==> s' == s)
  {
    var (r, s') := Acquire(web, s);
    if s.clientId.None? {
      var t := |s.log|;
      var log1 := s.log + [LandingPage];
      assert ApiCount(log1) == ApiCount(s.log) by { ApiCountAppend(s.log, [LandingPage]); }
      match web.scriptUrls(web.fetch(t, LandingUrl).body)
      case None =>
      case Some(urls) =>
        match FirstToken(web, t + 1, urls)
        case None =>
          AcquireNoToken(web, s, urls);
          ApiCountAppend(log1, ScriptRequests(urls));
          ApiCountNoApi(ScriptRequests(urls));
        case Some(j) =>
          AcquireFound(web, s, urls, j);
          ApiCountAppend(log1, ScriptRequests(urls[..j + 1]));
          ApiCountNoApi(ScriptRequests(urls[..j + 1]));
    }
  }

  /** The number of API (endpoint) requests in a log. */
  function ApiCount(log: seq<Request>): nat {
    if log == [] then 0 else ApiCount(log[..|log| - 1]) + (if log[|log| - 1].Api? then 1 else 0)
  }

  lemma {:induction false} ApiCountAppend(a: seq<Request>, b: seq<Request>)
    ensures ApiCount(a + b) == ApiCount(a) + ApiCount(b)
  {
    if b != [] {
      assert (a + b)[..|a + b| - 1] == a + b[..|b| - 1];
      ApiCountAppend(a, b[..|b| - 1]);
    } else {
      assert a + b == a;
    }
  }

  lemma {:induction false} ApiCountNoApi(log: seq<Request>)
    requires forall k :: 0 <= k < |log| ==> !log[k].Api?
    ensures ApiCount(log) == 0
  {
    if log != [] {
      ApiCountNoApi(log[..|log| - 1]);
    }
  }

  /** The URL with the credential appended as the `client_id` query parameter. */
  function WithCredential(url: string, clientId: string): (r: string)
  {
    url + (if '?' in url then "&" else "?") + "client_id=" + clientId
  }

  lemma WithCredentialSpec(url: string, clientId: string)
    ensures var r := WithCredential(url, clientId);
      && r[..|url|] == url
      && r[|url|] == (if '?' in url then '&' else '?')
      && r[|url| + 1..] == "client_id=" + clientId
  {
  }

  /** `fetchSoundCloudAPI(url, retry)`: the parsed body of an ok answer, or the error it throws. */
  function ApiRequest(web: Web, url: string, retry: bool, s: ClientState): (Result<string, CatalogError>, ClientState)
    requires ValidState(s)
    decreases retry
  {
    AcquireSpec(web, s);
    var (a, s1) := Acquire(web, s);
    if a.Err? then (Err(a.error), s1)
    else
      var full := WithCredential(url, s1.clientId.value);
      var resp := web.fetch(|s1.log|, full);
      var s2 := s1.(log := s1.log + [Api(full)]);
      if resp.status == 401 && retry then
        var s3 := s2.(clientId := None);
        AcquireSpec(web, s3);
        var (b, s4) := Acquire(web, s3);
        if b.Err? then (Err(b.error), s4) else ApiRequest(web, url, false, s4)
      else if !IsOk(resp.status) then (Err(Http(resp.status, resp.body)), s2)
      else (Ok(resp.body), s2)
  }

  /** Requests only append to the log, keep the cache valid, and reach the endpoint at most twice (once without retry). */
  lemma {:induction false} ApiRequestBounds(web: Web, url: string, retry: bool, s: ClientState)
    requires ValidState(s)
    ensures var (r, s') := ApiRequest(web, url, retry, s);
      && ValidState(s')
      && |s'.log| >= |s.log| && s'.log[..|s.log|] == s.log
      && ApiCount(s'.log) <= ApiCount(s.log) + (if retry then 2 else 1)
      && (r.Ok? ==> s'.clientId.Some?)
    decreases retry
  {
    AcquireSpec(web, s);
    var (a, s1) := Acquire(web, s);
    if a.Ok? {
      var full := WithCredential(url, s1.clientId.value);
      var resp := web.fetch(|s1.log|, full);
      var s2 := s1.(log := s1.log + [Api(full)]);
      ApiCountAppend(s1.log, [Api(full)]);
      if resp.status == 401 && retry {
        var s3 := s2.(clientId := None);
        AcquireSpec(web, s3);
        var (b, s4) := Acquire(web, s3);
        if b.Ok? {
          ApiRequestBounds(web, url, false, s4);
        }
      }
    }
  }

  /** With a cached credential and a first answer other than 401, exactly one request is made and its answer decides the result. */
  lemma NoRetryWithoutUnauthorized(web: Web, url: string, retry: bool, s: ClientState)
    requires ValidState(s) && s.clientId.Some?
    requires web.fetch(|s.log|, WithCredential(url, s.clientId.value)).status != 401
    ensures var resp := web.fetch(|s.log|, WithCredential(url, s.clientId.value));
      ApiRequest(web, url, retry, s) ==
        (if IsOk(resp.status) then Ok(resp.body) else Err(Http(resp.status, resp.body)),
         s.(log := s.log + [Api(WithCredential(url, s.clientId.value))]))
  {
  }

  /**
   * A 401 on the first attempt clears the cache, re-acquires and retries once.
   * If re-acquisition yields `token` and the retry is answered ok, the call
   * succeeds with the new credential cached; a second 401 is surfaced as an error.
   */
  lemma RetryOnceAfterUnauthorized(web: Web, url: string, s: ClientState)
    requires ValidState(s) && s.clientId.Some?
    requires web.fetch(|s.log|, WithCredential(url, s.clientId.value)).status == 401
    ensures var s2 := ClientState(None, s.log + [Api(WithCredential(url, s.clientId.value))]);
      var (b, s4) := Acquire(web, s2);
      var (r, s') := ApiRequest(web, url, true, s);
      && (b.Err? ==> r == Err(b.error))
      && (b.Ok? ==>
            var second := web.fetch(|s4.log|, WithCredential(url, b.value));
            && s'.clientId == Some(b.value)
            && s'.log == s4.log + [Api(WithCredential(url, b.value))]
            && ApiCount(s'.log) == ApiCount(s.log) + 2
            && (IsOk(second.status) ==> r == Ok(second.body))
            && (second.status == 401 ==> r == Err(Http(401, second.body))))
  {
    var full := WithCredential(url, s.clientId.value);
    var s2 := ClientState(None, s.log + [Api(full)]);
    AcquireSpec(web, s2);
    var (b, s4) := Acquire(web, s2);
    if b.Ok? {
      ApiCountAppend(s.log, [Api(full)]);
      ApiCountAppend(s4.log, [Api(WithCredential(url, b.value))]);
    }
  }

  /** `getStreamUrl`: the `url` field of the authenticated answer for the chosen encoding. */
  function StreamUrl(web: Web, track: Track, s: ClientState): (Result<string, CatalogError>, ClientState)
    requires ValidState(s)
  {
    if track.media.None? || track.media.value == [] then (Err(NoMedia), s)
    else
      var (r, s1) := ApiRequest(web, ChooseTranscoding(track.media.value).url, true, s);
      if r.Err? then (r, s1) else (Ok(web.urlField(r.value)), s1)
  }

  predicate IsProgressiveMp3(t: Transcoding) {
    t.protocol == "progressive" && t.mimeType == "audio/mpeg"
  }

  /** The first progressive `audio/mpeg` encoding, else the first listed. */
  function ChooseTranscoding(ts: seq<Transcoding>): (r: Transcoding)
    requires ts != []
    ensures r in ts
    ensures forall k :: 0 <= k < |ts| && IsProgressiveMp3(ts[k]) && (forall j :: 0 <= j < k ==> !IsProgressiveMp3(ts[j])) ==> r == ts[k]
    ensures (forall k :: 0 <= k < |ts| ==> !IsProgressiveMp3(ts[k])) ==> r == ts[0]
  {
    FirstMp3Or(ts, ts[0])
  }

  function FirstMp3Or(ts: seq<Transcoding>, fallback: Transcoding): (r: Transcoding)
    ensures r in ts || r == fallback
    ensures forall k :: 0 <= k < |ts| && IsProgressiveMp3(ts[k]) && (forall j :: 0 <= j < k ==> !IsProgressiveMp3(ts[j])) ==> r == ts[k]
    ensures (forall k :: 0 <= k < |ts| ==> !IsProgressiveMp3(ts[k])) ==> r == fallback
  {
    if ts == [] then fallback
    else if IsProgressiveMp3(ts[0]) then ts[0]
    else
      var r := FirstMp3Or(ts[1..], fallback);
      assert forall k :: 1 <= k < |ts| ==> ts[k] == ts[1..][k - 1];
      r
  }

  // ---- search ----

  datatype RawUser = RawUser(username: string, id: Scalar)

  /** A track record as the catalog's JSON has it: numeric or string ids, duration in milliseconds. */
  datatype RawTrack = RawTrack(
    id: Scalar,
    title: Option<string>,
    user: Option<RawUser>,
    durationMs: real,
    permalinkUrl: Option<string>,
    media: Option<seq<Transcoding>>,
    artworkUrl: Option<string>)

  /** The search filter: a title, a user and a media block are all present. */
  predicate Playable(r: RawTrack) {
    Present(r.title) && r.user.Some? && r.media.Some?
  }

  /** The mapping into the player's track shape: ids stringified, duration converted to seconds. */
  function ToTrack(r: RawTrack): (t: Track)
    requires r.user.Some?
    ensures t.id == r.id.ToString() && t.user.id == r.user.value.id.ToString()
    ensures t.user.username == r.user.value.username
    ensures t.duration * 1000.0 == r.durationMs
    ensures t.media == r.media && t.permalinkUrl == r.permalinkUrl && t.artworkUrl == r.artworkUrl
  {
    Track(r.id.ToString(), r.title.GetOr(""), User(r.user.value.username, r.user.value.id.ToString()),
          r.durationMs / 1000.0, r.permalinkUrl, r.media, r.artworkUrl)
  }

  /** `searchSoundCloud` after the request: the page's `collection` filtered and mapped; no collection gives `[]`. */
  function SearchResults(collection: Option<seq<RawTrack>>): (r: seq<Track>)
  {
    if collection.None? then [] else FilterMap(collection.value)
  }

  function FilterMap(rs: seq<RawTrack>): (r: seq<Track>)
    ensures |r| <= |rs|
  {
    if rs == [] then []
    else if Playable(rs[0]) then [ToTrack(rs[0])] + FilterMap(rs[1..])
    else FilterMap(rs[1..])
  }

  /**
   * The filter keeps collection order and multiplicity: a single record gives
   * its mapping exactly when it is playable, and the results of two runs of
   * records are concatenated.
   */
  lemma {:induction false} FilterMapOrder(a: seq<RawTrack>, b: seq<RawTrack>)
    ensures FilterMap(a + b) == FilterMap(a) + FilterMap(b)
    ensures forall x :: FilterMap([x]) == if Playable(x) then [ToTrack(x)] else []
    decreases |a|
  {
    forall x
      ensures FilterMap([x]) == if Playable(x) then [ToTrack(x)] else []
    {
      assert [x][1..] == [];
    }
    if a == [] {
      assert a + b == b;
    } else {
      FilterMapOrder(a[1..], b);
      assert (a + b)[0] == a[0];
      assert (a + b)[1..] == a[1..] + b;
    }
  }

  /** Search results are exactly the mapped playable records. */
  lemma {:induction false} FilterMapSpec(rs: seq<RawTrack>)
    ensures forall t :: t in FilterMap(rs) <==> exists k :: 0 <= k < |rs| && Playable(rs[k]) && t == ToTrack(rs[k])
    ensures (forall k :: 0 <= k < |rs| ==> Playable(rs[k])) ==> |FilterMap(rs)| == |rs|
    ensures (forall k :: 0 <= k < |rs| ==> !Playable(rs[k])) ==> FilterMap(rs) == []
  {
    if rs != [] {
      FilterMapSpec(rs[1..]);
      assert forall k :: 1 <= k < |rs| ==> rs[k] == rs[1..][k - 1];
      forall t | t in FilterMap(rs)
        ensures exists k :: 0 <= k < |rs| && Playable(rs[k]) && t == ToTrack(rs[k])
      {
        if Playable(rs[0]) && t == ToTrack(rs[0]) {
        } else {
          var k :| 0 <= k < |rs[1..]| && Playable(rs[1..][k]) && t == ToTrack(rs[1..][k]);
          assert rs[k + 1] == rs[1..][k];
        }
      }
      forall k | 0 <= k < |rs| && Playable(rs[k])
        ensures ToTrack(rs[k]) in FilterMap(rs)
      {
        if k > 0 {
          assert rs[1..][k - 1] == rs[k];
        }
      }
    }
  }

  // ---- display helpers ----

  /** JavaScript's truncation toward zero. */
  function Trunc(x: real): int {
    if x >= 0.0 then x.Floor else -((-x).Floor)
  }

  /** `formatTime`: `m:ss` with `m = floor(s / 60)` and `ss = floor(s % 60)` padded to two digits (`%` truncates). */
  function FormatTime(seconds: real): string {
    var minutes := (seconds / 60.0).Floor;
    var secs := (seconds - 60.0 * (Trunc(seconds / 60.0) as real)).Floor;
    IntToString(minutes) + ":" + PadStart2(IntToString(secs))
  }

  /** For a non-negative time the text reads back as the whole seconds, with `0 <= ss < 60` in two digits. */
  lemma FormatTimeReadsBack(seconds: real)
    requires seconds >= 0.0
    ensures var f := FormatTime(seconds); var n := |f|;
      && n >= 4 && f[n - 3] == ':'
      && AllDigits(f[..n - 3]) && AllDigits(f[n - 2..])
      && ParseDecimal(f[n - 2..]) < 60
      && 60 * ParseDecimal(f[..n - 3]) + ParseDecimal(f[n - 2..]) == seconds.Floor
  {
    var m := (seconds / 60.0).Floor;
    var sec := (seconds - 60.0 * (Trunc(seconds / 60.0) as real)).Floor;
    ClockSplit(seconds);
    TwoDigits(sec);
    ParseDecimalRoundTrip(m);
    var ms := IntToString(m);
    var ss := PadStart2(IntToString(sec));
    assert ms == Decimal(m);
    var f := FormatTime(seconds);
    assert f == ms + ":" + ss;
    var n := |f|;
    assert n == |ms| + 3;
    assert f[..n - 3] == ms;
    assert f[n - 2..] == ss;
  }

  lemma ClockSplit(seconds: real)
    requires seconds >= 0.0
    ensures var m := (seconds / 60.0).Floor;
      var sec := (seconds - 60.0 * (Trunc(seconds / 60.0) as real)).Floor;
      m >= 0 && 0 <= sec < 60 && 60 * m + sec == seconds.Floor
  {
    var m := (seconds / 60.0).Floor;
    assert Trunc(seconds / 60.0) == m;
    var rest := seconds - 60.0 * (m as real);
    assert 0.0 <= rest < 60.0;
    assert (m as real) * 60.0 + rest == seconds;
  }

  lemma TwoDigits(sec: int)
    requires 0 <= sec < 60
    ensures var ss := PadStart2(IntToString(sec));
      |ss| == 2 && AllDigits(ss) && ParseDecimal(ss) == sec
  {
    var hi, lo := DigitChar(sec / 10), DigitChar(sec % 10);
    if sec < 10 {
      assert Decimal(sec) == [lo];
    } else {
      assert Decimal(sec / 10) == [hi];
      assert Decimal(sec) == [hi, lo];
    }
    var ss := [hi, lo];
    assert PadStart2(IntToString(sec)) == ss;
    assert ss[..1] == [hi];
    assert [hi][..0] == [];
    assert ParseDecimal([hi]) == sec / 10;
    assert ParseDecimal(ss) == 10 * (sec / 10) + sec % 10;
  }

  const Logo := "/images/logo.png"

  /** `getCoverUrl`: the logo without artwork, else the first `-large` replaced by `-t500x500`. */
  function CoverUrl(track: Track): (r: string)
    ensures !Present(track.artworkUrl) ==> r == Logo
    ensures Present(track.artworkUrl) && (forall k :: !MatchAt(track.artworkUrl.value, "-large", k)) ==> r == track.artworkUrl.value
    ensures Present(track.artworkUrl) ==> forall k ::
      (MatchAt(track.artworkUrl.value, "-large", k) && forall j :: 0 <= j < k ==> !MatchAt(track.artworkUrl.value, "-large", j)) ==>
      r == track.artworkUrl.value[..k] + "-t500x500" + track.artworkUrl.value[k + 6..]
  {
    if !Present(track.artworkUrl) then Logo else ReplaceFirst(track.artworkUrl.value, "-large", "-t500x500")
  }

  /** The client object: the module-level cached credential and the requests issued. */
  class CatalogClient {
    var clientId: Option<string>
    var log: seq<Request>

    function State(): ClientState
      reads this
    {
      ClientState(clientId, log)
    }

    ghost predicate Valid()
      reads this
    {
      ValidState(State())
    }

    constructor ()
      ensures Valid() && State() == ClientState(None, [])
    {
      clientId := None;
      log := [];
    }

    /** `fetchAndSetClientId`. */
    method FetchAndSetClientId(web: Web) returns (r: Result<string, CatalogError>)
      requires Valid()
      modifies this
      ensures Valid()
      ensures (r, State()) == Acquire(web, old(State()))
    {
      ghost var s0 := State();
      if clientId.Some? {
        r := Ok(clientId.value);
        assert (r, State()) == Acquire(web, s0);
        return;
      }
      var page := web.fetch(|log|, LandingUrl).body;
      log := log + [LandingPage];
      var found := web.scriptUrls(page);
      if found.None? {
        AcquireNoScripts(web, s0);
        r := Err(NoScripts);
        assert (r, State()) == Acquire(web, s0);
        return;
      }
      r := ScanScripts(web, found.value);
    }

    /** The loop of `fetchAndSetClientId`: the scripts are fetched in page order until one embeds a credential. */
    method ScanScripts(web: Web, urls: seq<string>) returns (r: Result<string, CatalogError>)
      requires clientId.None?
      modifies this
      ensures Valid()
      ensures (r, State()) == Scan(web, old(log), urls)
    {
      ghost var log1 := log;
      var t := |log|;
      var i := 0;
      while i < |urls|
        invariant 0 <= i <= |urls|
        invariant clientId.None?
        invariant log == log1 + ScriptRequests(urls[..i])
        invariant forall j :: 0 <= j < i ==> TokenAt(web, t + j, urls[j]).None?
      {
        assert |log| == t + i;
        var body := web.fetch(|log|, urls[i]).body;
        log := log + [Script(urls[i])];
        ScriptRequestsSnoc(urls, i);
        var m := web.clientIdIn(body);
        assert TokenAt(web, t + i, urls[i]) == if m.Some? && m.value != "" then m else None;
        if m.Some? && m.value != "" {
          assert log == log1 + ScriptRequests(urls[..i + 1]);
          ScanHit(web, log1, urls, i);
          clientId := m;
          r := Ok(m.value);
          return;
        }
        i := i + 1;
      }
      assert urls[..i] == urls;
      ScanMiss(web, log1, urls);
      r := Err(NoClientId);
    }

    /** `fetchSoundCloudAPI(url, retry)`. */
    method FetchApi(url: string, retry: bool, web: Web) returns (r: Result<string, CatalogError>)
      requires Valid()
      modifies this
      ensures Valid()
      ensures (r, State()) == ApiRequest(web, url, retry, old(State()))
      decreases retry
    {
      var a := FetchAndSetClientId(web);
      if a.Err? {
        return Err(a.error);
      }
      AcquireSpec(web, old(State()));
      var full := WithCredential(url, clientId.value);
      var resp := web.fetch(|log|, full);
      log := log + [Api(full)];
      if resp.status == 401 && retry {
        clientId := None;
        var b := FetchAndSetClientId(web);
        if b.Err? {
          return Err(b.error);
        }
        r := FetchApi(url, false, web);
        return;
      }
      if !IsOk(resp.status) {
        return Err(Http(resp.status, resp.body));
      }
      return Ok(resp.body);
    }

    /** `getStreamUrl`. */
    method GetStreamUrl(track: Track, web: Web) returns (r: Result<string, CatalogError>)
      requires Valid()
      modifies this
      ensures Valid()
      ensures (r, State()) == StreamUrl(web, track, old(State()))
    {
      if track.media.None? || track.media.value == [] {
        return Err(NoMedia);
      }
      var chosen := ChooseTranscoding(track.media.value);
      var data := FetchApi(chosen.url, true, web);
      if data.Err? {
        return data;
      }
      return Ok(web.urlField(data.value));
    }
  }
}
