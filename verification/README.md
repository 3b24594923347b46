# axom-player core in Dafny

This project models the core of axom-player. axom-player is a desktop SoundCloud player: a React front end inside a Tauri shell. The model covers:

- **The player context** (`player_context.dfy`, module `PlayerContext`). This is the playback session: current track, queue, index, shuffle and repeat, the playing and loading flags. The session is a class. Around it sit pure state updaters:
  - the ten most recently played tracks;
  - likes per context;
  - shuffle and repeat settings per playlist;
  - the user's playlists;
  - the progress banner of a playlist download.
- **The catalog client** (`soundcloud.dfy`, module `SoundCloud`):
  - credential discovery by scanning the landing page's scripts;
  - authenticated requests with one retry after a 401;
  - search-result mapping;
  - stream-URL selection;
  - time formatting and cover URLs.
- **"My Wave"** (`mywave.dfy`, module `MyWave`):
  - the duplicate-free store of played artists' ids;
  - the queue builder: collect up to a limit, deduplicate by id, Fisher–Yates shuffle, map to tracks.
- **The shell's download commands** (`downloads.dfy`, module `Downloads`):
  - file-name sanitising and playlist file names;
  - the progress events and success counter of a playlist download.
- **The page components**:
  - track rows (`track_item.dfy`);
  - the fullscreen player's background colour (`fullscreen_player.dfy`);
  - the home page's two-slot panels (`home_page.dfy`);
  - the playlists page's handlers, artist line and button colour (`playlists_page.dfy`);
  - the frequency-analyser hook (`audio_analyzer.dfy`).

Shared pieces:
- `media.dfy` holds the track, user and playlist data model and JavaScript truthiness.
- `text.dfy` holds the string operations the source relies on: decimal rendering, `padStart`, first-occurrence `replace`, `join`, `trim`, ASCII lower-casing.
- `wrappers.dfy` holds `Option` and `Result`.

Modelling conventions:

- **State that the source mutates is a class with fields.**
  - The session's React state is `PlayerContext.Session`.
  - The module-level cached credential and the request log are `SoundCloud.CatalogClient`.
  - The analyser hook's refs are `AudioAnalyzer.FrequencyAnalyzer`.
  - Each method is proved equal to a specification function on values, and the properties are proved about those functions.
- **The outside world becomes parameters.** Network answers, browser storage, the pixels of a drawn image, the analyser's spectrum and the downloader process are given as input values:
  - `SoundCloud.Web` answers request number *n* for a URL, so a retried request may get a different answer;
  - `MyWave.Catalog`;
  - `Downloads.Env`.
- **Random choices are nondeterministic choices.** This covers the Fisher–Yates index and the shuffle redraw.
- **JavaScript numbers are modelled exactly where it matters:**
  - ECMAScript ToInt32 for the URL hash, and `Math.abs` without 32-bit overflow;
  - `Math.floor(n * 0.1)` and `Math.floor(n * 0.4)` as `n / 10` and `2n / 5`;
  - `Math.floor(c * 1.2)` as `6c / 5`;
  - the 2% threshold as `50 * count >= total`;
  - the saturation test as `10 (max - min) < 3 max`.

## Model

| member | source | states |
|---|---|---|
| Media.FindIndex | src/contexts/PlayerContext.tsx:226 | the first queue position holding the id, or -1 exactly when no entry has it |
| Text.ParseDecimalRoundTrip | src/utils/mywave.ts:24 | reading back the decimal digits of a number gives the number (used for `Number(id)` and for file names) |
| Text.ReplaceFirst | src/utils/soundcloud.ts:136 | only the first occurrence of the pattern is replaced; no occurrence leaves the string as it is |
| Text.TrimEmptyIffBlank | src/components/pages/PlaylistsPage.tsx:91 | `trim()` is empty exactly when every character is whitespace |
| Text.TrimSpec | src/components/pages/PlaylistsPage.tsx:91-92 | `trim()` is the slice `s[i..j]` with only whitespace before `i` and after `j`, starting and ending with non-whitespace when non-empty |
| Text.ToLower | src/components/TrackItem.tsx:57 | each character lower-cased, the length kept, whitespace staying whitespace |
| Text.JoinAppend | src/components/pages/PlaylistsPage.tsx:237 | joining two non-empty lists puts exactly one separator between their joins; appending a part appends the separator and the part |
| SoundCloud.FirstToken | src/utils/soundcloud.ts:29-39 | the first script, in page order, whose body yields a credential; none only when no script does |
| SoundCloud.AcquireSpec | src/utils/soundcloud.ts:7-44 | a cached credential is returned with nothing fetched; otherwise success caches exactly the returned non-empty credential, failure is "no scripts" or "no credential", the log only grows, and no API request is made |
| SoundCloud.AcquireNoScripts | src/utils/soundcloud.ts:23-27 | a landing page with no asset script fails after one request |
| SoundCloud.AcquireNoToken | src/utils/soundcloud.ts:29-40 | when no script holds a credential every script is fetched, in order, and the scan fails |
| SoundCloud.AcquireFound | src/utils/soundcloud.ts:29-38 | the scan stops at the first script with a credential, having fetched the scripts up to it |
| SoundCloud.ScanHit | src/utils/soundcloud.ts:29-38 | a scan whose first credential is in script `i` returns it, caches it and has fetched exactly the scripts up to `i` |
| SoundCloud.ScanMiss | src/utils/soundcloud.ts:29-40 | a scan that finds no credential has fetched every script and fails with no cached credential |
| SoundCloud.WithCredentialSpec | src/utils/soundcloud.ts:57-58 | the URL, then `&` if it already has `?` else `?`, then `client_id=` and the credential |
| SoundCloud.ApiRequestBounds | src/utils/soundcloud.ts:47-74 | a request keeps the cache valid, only appends to the log, reaches the endpoint at most twice with retry and once without, and succeeds only with a cached credential |
| SoundCloud.NoRetryWithoutUnauthorized | src/utils/soundcloud.ts:60-73 | with a cached credential and a first answer other than 401, one request is made: an ok answer gives its body, any other fails with its status |
| SoundCloud.RetryOnceAfterUnauthorized | src/utils/soundcloud.ts:62-66 | a 401 clears the cache, re-acquires and retries exactly once with the new credential; a second 401 is surfaced as an error |
| SoundCloud.ChooseTranscoding | src/utils/soundcloud.ts:112-116 | the first progressive `audio/mpeg` encoding, else the first listed |
| SoundCloud.ToTrack | src/utils/soundcloud.ts:85-96 | ids become their string forms, duration is divided by 1000, and the other fields are copied |
| SoundCloud.FilterMapSpec | src/utils/soundcloud.ts:82-99 | search results are exactly the mapped records with title, user and media |
| SoundCloud.FilterMapOrder | src/utils/soundcloud.ts:82-99 | the filter-and-map keeps collection order and multiplicity: it distributes over concatenation, and one record gives its mapping exactly when it is playable |
| SoundCloud.FormatTimeReadsBack | src/utils/soundcloud.ts:127-131 | for a non-negative time, `m:ss` with two-digit seconds below 60 and `60m + ss` equal to the whole seconds |
| SoundCloud.CoverUrl | src/utils/soundcloud.ts:134-137 | the logo without artwork; else the first `-large` replaced by `-t500x500` |
| SoundCloud.CatalogClient.constructor | src/utils/soundcloud.ts:4 | no cached credential and no request made |
| SoundCloud.CatalogClient.FetchAndSetClientId | src/utils/soundcloud.ts:7-44 | the result and new state are those of `Acquire` on the old state |
| SoundCloud.CatalogClient.ScanScripts | src/utils/soundcloud.ts:29-40 | the script loop's result and state equal `Scan` over the scripts |
| SoundCloud.CatalogClient.FetchApi | src/utils/soundcloud.ts:47-74 | the result and new state are those of `ApiRequest` |
| SoundCloud.CatalogClient.GetStreamUrl | src/utils/soundcloud.ts:106-124 | no media fails without a request; otherwise the `url` field of the chosen encoding's authenticated answer |
| MyWave.NormalizeId | src/utils/mywave.ts:24 | a non-empty all-digit string becomes the number it spells; every other id is kept |
| MyWave.StoreArtistId | src/utils/mywave.ts:10-37 | a falsy id or an id already stored leaves storage unchanged; otherwise the normalised id is appended |
| MyWave.StoreArtistIdKeepsNoDups | src/utils/mywave.ts:26-33 | storing keeps the list duplicate-free and keeps the earlier entries as a prefix |
| MyWave.StoreArtistIdIdempotent | src/utils/mywave.ts:26 | storing the same id twice equals storing it once |
| MyWave.TruthyIds | src/utils/mywave.ts:50 | exactly the truthy stored ids |
| MyWave.TruthyIdsAppend | src/utils/mywave.ts:50 | `filter(Boolean)` keeps order and multiplicity: it distributes over concatenation |
| MyWave.DistinctSpec | src/utils/mywave.ts:50 | `Array.from(new Set(..))` is duplicate-free, has the same members and is no longer |
| MyWave.DistinctPrefix | src/utils/mywave.ts:50 | first occurrences keep their places when more values follow |
| MyWave.Normalize | src/utils/mywave.ts:67-73 | an array reply as it is, else `collection`, else `data`, else `tracks`, else no items |
| MyWave.Enrich | src/utils/mywave.ts:94-97 | a record without media and with a truthy id is replaced by its detailed record when that one has a truthy id; otherwise it is kept |
| MyWave.EnrichAll | src/utils/mywave.ts:92-102 | each item enriched in place, in order |
| MyWave.CollectedSpec | src/utils/mywave.ts:54-110 | the collected records are a prefix of all records the stored artists give, artist by artist: the first `limit` of them for a positive limit; for limit 0, only the first record of the first artist, or nothing when that artist has none (the outer `break` at line 109 fires after the first artist) |
| MyWave.FirstArtist | src/utils/mywave.ts:56-109 | the records the first artist gives are the enriched items of that artist |
| MyWave.Collect | src/utils/mywave.ts:54-110 | the two loops, with the inner `break` at line 103 and the outer one at line 109, collect exactly `Collected`, at most `max(1, limit)` records |
| MyWave.CollectStops | src/utils/mywave.ts:103-109 | leaving both loops after the push that reaches the limit keeps exactly that prefix |
| MyWave.AllItemsPrefix | src/utils/mywave.ts:56-110 | the records of the first artists are a prefix of the records of all of them |
| MyWave.KeysSpec | src/utils/mywave.ts:113-114 | the Map's keys are distinct and are exactly the truthy ids of the records |
| MyWave.LastWith | src/utils/mywave.ts:114 | the Map's value for a key is the last record with that id |
| MyWave.DedupeById | src/utils/mywave.ts:113-115 | the Map's values in key order: one record per key, the last written for it |
| MyWave.DedupeIds | src/utils/mywave.ts:113-115 | deduplicated records carry pairwise distinct ids, exactly the truthy ids collected |
| MyWave.DedupeFrom | src/utils/mywave.ts:114 | every deduplicated record is a collected record with a truthy id |
| MyWave.QueueMapped | src/utils/mywave.ts:115-135 | each track of a prefix of a permutation of the deduplicated records is mapped from a collected record with a truthy id and a user |
| MyWave.Shuffle | src/utils/mywave.ts:118-121 | the Fisher–Yates loop permutes the array (multiset preserved) |
| MyWave.ToTracks | src/utils/mywave.ts:123-134 | each record mapped in order; a record without a user makes the mapping throw |
| MyWave.QueueShape | src/utils/mywave.ts:118-135 | mapping the first `min(limit, n)` of a permutation of `n` records maps `min(limit, n)` of those records, none taken twice |
| MyWave.GetMyWaveQueue | src/utils/mywave.ts:40-135 | no stored id gives the empty queue; otherwise the queue maps exactly `min(limit, n)` of the `n` deduplicated collected records, none twice (a sub-multiset), so all of them when the limit covers them; each track is the mapping of a collected record with a truthy id |
| Downloads.SanitizeChar | src-tauri/src/lib.rs:50-53 | the nine reserved characters become `_`; every other character is kept |
| Downloads.Sanitize | src-tauri/src/lib.rs:105-111 | the length is kept, no reserved character remains, and each character is mapped independently |
| Downloads.SanitizeIdempotent | src-tauri/src/lib.rs:139-145 | sanitising twice equals sanitising once |
| Downloads.SanitizeClean | src-tauri/src/lib.rs:48-54 | a name without reserved characters is unchanged |
| Downloads.SanitizeAppend | src-tauri/src/lib.rs:139-145 | sanitising distributes over concatenation |
| Downloads.Pad2 | src-tauri/src/lib.rs:139 | `{:02}` gives at least two digits that read back as the number |
| Downloads.PlaylistFileNameSpec | src-tauri/src/lib.rs:129-145 | the file name reads back as the 1-based track number, ` - `, then the sanitised artist and title, with no reserved character |
| Downloads.DownloadTrack | src-tauri/src/lib.rs:25-76 | success exactly when setup succeeds and the downloader succeeds; the result is the sanitised `artist - title` |
| Downloads.ProgressEventsSpec | src-tauri/src/lib.rs:129-155 | one `downloading` event per track with a permalink, each naming its 0-based position, positions strictly increasing |
| Downloads.SuccessesBound | src-tauri/src/lib.rs:168-179 | at most the attempted tracks succeed |
| Downloads.DownloadPlaylist | src-tauri/src/lib.rs:79-191 | setup failures return their error with no event; otherwise `starting`, the per-track events, `completed`, and the success count of the total with the sanitised folder name |
| PlayerContext.Without | src/contexts/PlayerContext.tsx:230 | `filter` keeps exactly the tracks with another id |
| PlayerContext.WithoutSpec | src/contexts/PlayerContext.tsx:230 | filtering keeps order and unique ids, and changes nothing when the id is absent |
| PlayerContext.WithoutConcat | src/contexts/PlayerContext.tsx:472 | the track filter keeps every other track as often as it is listed, in order: it distributes over concatenation, and one track is kept exactly when its id differs |
| PlayerContext.PushRecent | src/contexts/PlayerContext.tsx:229-232 | the played track first, followed by the most recent earlier entries without it (the first up-to-nine of the filtered list), at most ten in all |
| PlayerContext.PushRecentSpec | src/contexts/PlayerContext.tsx:229-232 | the other entries keep their relative order, and unique ids stay unique |
| PlayerContext.PushRecentIdempotent | src/contexts/PlayerContext.tsx:229-232 | playing a track twice in a row leaves the same recents as once |
| PlayerContext.NextRepeat | src/contexts/PlayerContext.tsx:340-349 | the mode always changes |
| PlayerContext.RepeatCycle | src/contexts/PlayerContext.tsx:340-349 | off, all, one, off: three toggles are the identity |
| PlayerContext.TogglePlaylistRepeat | src/contexts/PlayerContext.tsx:385-394 | the playlist's mode advances (missing counts as off); other playlists are untouched |
| PlayerContext.TogglePlaylistShuffle | src/contexts/PlayerContext.tsx:378-383 | the playlist's flag is negated (missing counts as false); other playlists are untouched |
| PlayerContext.IndexOfId | src/contexts/PlayerContext.tsx:351-370 | `indexOf`: the first position of the id, or -1 exactly when absent |
| PlayerContext.ToggleLike | src/contexts/PlayerContext.tsx:351-371 | other contexts are untouched; the context keeps its key only with a non-empty list; a liked id is removed once, an unliked one appended |
| PlayerContext.Toggled | src/contexts/PlayerContext.tsx:356-361 | a listed id loses its first occurrence by a splice that keeps the other entries in order (the multiset shrinks by exactly it); an absent id is appended |
| PlayerContext.ToggledFlips | src/contexts/PlayerContext.tsx:356-361 | on a duplicate-free list, the splice or append flips exactly that id's membership and keeps the list duplicate-free |
| PlayerContext.ToggleLikeFlips | src/contexts/PlayerContext.tsx:351-376 | on a duplicate-free list, toggling flips exactly that id's liked status and keeps the list duplicate-free |
| PlayerContext.RemoveAtSpec | src/contexts/PlayerContext.tsx:351-370 | removing one position of a duplicate-free list removes exactly that value |
| PlayerContext.CountOne | src/contexts/PlayerContext.tsx:351-370 | a listed value occurs once in a duplicate-free list |
| PlayerContext.CreatePlaylist | src/contexts/PlayerContext.tsx:447-455 | a new empty playlist, with the creation time as id, appended after the existing ones |
| PlayerContext.DeletePlaylist | src/contexts/PlayerContext.tsx:457-459 | exactly the playlists with another id remain, in order; an absent id leaves the list unchanged |
| PlayerContext.DeletePlaylistConcat | src/contexts/PlayerContext.tsx:458 | the filter distributes over concatenation, so every kept playlist stays as often as listed, in order |
| PlayerContext.DeletePlaylistOne | src/contexts/PlayerContext.tsx:458 | one playlist is kept exactly when its id differs |
| PlayerContext.AddTrackToPlaylist | src/contexts/PlayerContext.tsx:461-467 | the track is appended to each playlist with that id; the others are unchanged |
| PlayerContext.RemoveTrackFromPlaylist | src/contexts/PlayerContext.tsx:469-475 | every track with that id leaves each playlist with that id; the others are unchanged |
| PlayerContext.RemoveAfterAdd | src/contexts/PlayerContext.tsx:461-475 | removing a track just added undoes the addition when the playlist did not hold it |
| PlayerContext.StepModes | src/contexts/PlayerContext.tsx:270-320 | no queue or no index does nothing; repeat-one replays; shuffle picks the drawn index; sequential play moves one place, wrapping only under repeat-all |
| PlayerContext.StepInRange | src/contexts/PlayerContext.tsx:270-320 | from a valid index every chosen index is in range; only sequential play off either end under repeat-off stops |
| PlayerContext.StepInverse | src/contexts/PlayerContext.tsx:270-320 | under repeat-all, previous undoes next and next undoes previous |
| PlayerContext.ForwardNWraps | src/contexts/PlayerContext.tsx:270-294 | `k` nexts under repeat-all move `k` places, wrapping once; `len` of them return to the start |
| PlayerContext.ThreeTrackWalk | src/contexts/PlayerContext.tsx:270-320 | the walk through a three-track queue under off and all |
| PlayerContext.Project | src/contexts/PlayerContext.tsx:416-441 | the banner copies the event and shows a download in progress exactly until `completed` |
| PlayerContext.ProjectDownload | src/contexts/PlayerContext.tsx:416-441 | over a playlist download's events the banner is in progress until the last event, which shows `current == total` |
| PlayerContext.Session.constructor | src/contexts/PlayerContext.tsx:121-149 | the initial state of every piece of session state |
| PlayerContext.Session.PlayTrack | src/contexts/PlayerContext.tsx:218-254 | no audio element: nothing changes. Otherwise: the track becomes current; a given queue is adopted with the given index or the track's first position; recents are updated and the artist is stored; the stream is resolved as `getStreamUrl` does; playing is true exactly when the stream resolved and play started; loading ends false |
| PlayerContext.Session.Advance | src/contexts/PlayerContext.tsx:270-320 | the chosen index is `Step` of the old state; a shuffle draw is acceptable; no step or an out-of-range one changes nothing; otherwise that queue entry is played with that index |
| PlayerContext.Session.Pause | src/contexts/PlayerContext.tsx:256-261 | with an audio element playing stops; without one nothing changes |
| PlayerContext.Session.Resume | src/contexts/PlayerContext.tsx:263-268 | with an audio element playing starts; without one nothing changes |
| PlayerContext.Session.Seek | src/contexts/PlayerContext.tsx:322-327 | the time is set only with an audio element |
| PlayerContext.Session.SetVolume | src/contexts/PlayerContext.tsx:329-334 | the volume is set only with an audio element |
| PlayerContext.Session.OnEnded | src/contexts/PlayerContext.tsx:561-564 | playback stops, then next runs: the choice is `nextTrack`'s forward step; a chosen in-range index plays that queue entry with the same queue (`PlayedFrom`, the stream resolved for it); when the step chooses nothing the track, queue, index and history stay and playing is false (an out-of-range index: see Left out) |
| PlayerContext.Session.ToggleShuffle | src/contexts/PlayerContext.tsx:336-338 | the shuffle flag is negated |
| PlayerContext.Session.ToggleRepeat | src/contexts/PlayerContext.tsx:340-349 | the repeat mode advances |
| PlayerContext.Session.TogglePlaylistShuffleOf | src/contexts/PlayerContext.tsx:378-383 | the playlist-shuffle map is updated by `TogglePlaylistShuffle` |
| PlayerContext.Session.TogglePlaylistRepeatOf | src/contexts/PlayerContext.tsx:385-394 | the playlist-repeat map is updated by `TogglePlaylistRepeat` |
| PlayerContext.Session.ToggleLikeOf | src/contexts/PlayerContext.tsx:351-371 | the likes are updated by `ToggleLike` |
| PlayerContext.Session.CreatePlaylistNamed | src/contexts/PlayerContext.tsx:447-455 | the playlists are updated by `CreatePlaylist` |
| PlayerContext.Session.DeletePlaylistWithId | src/contexts/PlayerContext.tsx:457-459 | the playlists are updated by `DeletePlaylist` |
| PlayerContext.Session.AddTrackTo | src/contexts/PlayerContext.tsx:461-467 | the playlists are updated by `AddTrackToPlaylist` |
| PlayerContext.Session.RemoveTrackFrom | src/contexts/PlayerContext.tsx:469-475 | the playlists are updated by `RemoveTrackFromPlaylist` |
| PlayerContext.Session.PlayPlaylist | src/contexts/PlayerContext.tsx:477-481 | an empty playlist (or no audio element) changes nothing; otherwise its first track plays with the playlist as queue and index 0 (`PlayedFrom`, the stream resolved for it) |
| PlayerContext.Session.StartDownload | src/contexts/PlayerContext.tsx:396-414 | the banner starts at 0 of the track count; a failed command clears it |
| PlayerContext.Session.OnProgress | src/contexts/PlayerContext.tsx:420-428 | the banner becomes the event's projection |
| PlayerContext.Session.ClearProgress | src/contexts/PlayerContext.tsx:430-434 | the banner is cleared |
| TrackItem.LikeContext | src/components/TrackItem.tsx:17 | the given context, else `default` |
| TrackItem.HandleClick | src/components/TrackItem.tsx:38-46 | the row's own `onPlay` when given; else `playTrack` with queue and index when both are given, the bare track otherwise |
| TrackItem.RowClickAsWritten | src/components/pages/PlaylistsPage.tsx:296-299 | as the callers pass it, row `k` plays with index `k + 1`: next skips a row, previous replays the clicked row, and repeat-one on the last row asks for a position past the end |
| TrackItem.RowClickPlaysRow | src/components/TrackItem.tsx:41-42 | passing the row's own position plays row `k` at index `k` (its first position when ids are unique); next and previous move to the neighbouring rows, and every step stays in range |
| TrackItem.PlayedRowIsCurrent | src/components/TrackItem.tsx:34-35 | after a play, exactly the rows with that id are current, and they show as playing exactly while playback runs |
| TrackItem.Hyphenate | src/components/TrackItem.tsx:57 | `replace(/\s+/g, '-')` leaves no whitespace and never lengthens |
| TrackItem.HyphenateClean | src/components/TrackItem.tsx:57 | a string without whitespace is unchanged |
| TrackItem.HyphenateRun | src/components/TrackItem.tsx:57 | a whole whitespace run becomes a single `-` |
| TrackItem.HyphenateIdempotent | src/components/TrackItem.tsx:57 | hyphenating twice equals once |
| TrackItem.Slug | src/components/TrackItem.tsx:57 | the lower-cased title without whitespace, no longer than the title |
| TrackItem.Link | src/components/TrackItem.tsx:57 | the permalink when present; else the profile URL, the username, `/` and the whitespace-free slug |
| TrackItem.MenuItems | src/components/TrackItem.tsx:162-180 | download and copy are always offered; add-to-playlist exactly when not hidden |
| TrackItem.RightClick | src/components/TrackItem.tsx:48-52 | the open menu becomes this row's |
| TrackItem.ClickOutside | src/components/TrackItem.tsx:87-97 | a click elsewhere closes this row's open menu and does nothing otherwise |
| TrackItem.MenuSpec | src/components/TrackItem.tsx:54-78 | a right click opens exactly the menus of rows with that id; each item closes the menu and has its effect: download the link, copy the link, or mark the track pending and open the playlists page |
| TrackItem.LikeClickFlips | src/components/TrackItem.tsx:80-85 | a like click flips this row's heart and no other track's, in this context or any other |
| FullscreenPlayer.ToInt32 | src/components/FullscreenPlayer.tsx:137-138 | a signed 32-bit value congruent to the input modulo 2^32 |
| FullscreenPlayer.HashStepIs31 | src/components/FullscreenPlayer.tsx:137-138 | `((h << 5) - h) + c` then `hash & hash` is `31h + c` reduced to 32 bits |
| FullscreenPlayer.HashIsPoly | src/components/FullscreenPlayer.tsx:134-139 | the hash is the polynomial `Σ c_i · 31^(n-1-i)` reduced to a signed 32-bit integer |
| FullscreenPlayer.HashCode | src/components/FullscreenPlayer.tsx:134-139 | the loop computes `Hash` of the code units |
| FullscreenPlayer.PaletteIndex | src/components/FullscreenPlayer.tsx:155 | `Math.abs(hash) % 10` is an index of the palette |
| FullscreenPlayer.ColorFromUrl | src/components/FullscreenPlayer.tsx:132-157 | the colour is one of the ten; the empty URL picks the first |
| FullscreenPlayer.FallbackColor | src/components/FullscreenPlayer.tsx:132-157 | the loop-computed colour equals `ColorFromUrl` |
| FullscreenPlayer.SmallHashes | src/components/FullscreenPlayer.tsx:132-157 | `a` hashes to 97 (entry 7) and `ab` to 3105 (entry 5) |
| FullscreenPlayer.MinHashIndex | src/components/FullscreenPlayer.tsx:155 | the hash -2^31 picks entry 8 |
| FullscreenPlayer.Quantize | src/components/FullscreenPlayer.tsx:58-60 | the channel floored to a multiple of 20 at or below it, in [0, 240] |
| FullscreenPlayer.OpaqueCount | src/components/FullscreenPlayer.tsx:53-55 | the opaque pixels counted are at most the pixels |
| FullscreenPlayer.IndexOfKey | src/components/FullscreenPlayer.tsx:64 | `has`/`get` on the colour map: the group with that key, or none exactly when no group has it |
| FullscreenPlayer.GroupsSpec | src/components/FullscreenPlayer.tsx:42-74 | the map is a faithful tally: distinct keys, each group counts exactly its key's opaque pixels (at least one), a key is present iff it has pixels, and the counts sum to the opaque total |
| FullscreenPlayer.GroupOfKey | src/components/FullscreenPlayer.tsx:64-73 | the group found for a key counts that key's opaque pixels; a key not found has none |
| FullscreenPlayer.GroupsDistinct | src/components/FullscreenPlayer.tsx:64-73 | no key is added twice |
| FullscreenPlayer.GroupsSum | src/components/FullscreenPlayer.tsx:53-73 | every opaque pixel adds one to exactly one group |
| FullscreenPlayer.Tally | src/components/FullscreenPlayer.tsx:42-74 | the pixel loop's map and total are `Groups` and `OpaqueCount` |
| FullscreenPlayer.MinCountExact | src/components/FullscreenPlayer.tsx:79-81 | for a non-empty group, `count >= max(1, total · 0.02)` over the reals is `50 · count >= total` |
| FullscreenPlayer.Survivors | src/components/FullscreenPlayer.tsx:80-81 | exactly the significant groups |
| FullscreenPlayer.FirstMax | src/components/FullscreenPlayer.tsx:82-87 | the head after the stable descending sort: a maximal count, every earlier group strictly smaller |
| FullscreenPlayer.Dominant | src/components/FullscreenPlayer.tsx:76-87 | a significant group of maximal count, or none exactly when no group is significant |
| FullscreenPlayer.FewGroupsSurvive | src/components/FullscreenPlayer.tsx:78-84 | with at most 50 groups covering the opaque pixels, some group is significant |
| FullscreenPlayer.DominantOfSpec | src/components/FullscreenPlayer.tsx:42-87 | no opaque pixel gives the fallback; a chosen group is a real key holding at least 2% of the opaque pixels and at least as many as any significant key |
| FullscreenPlayer.UpdateBackground | src/components/FullscreenPlayer.tsx:209-225 | an unloaded cover gives the dark default; unreadable pixels or no significant group give the URL's palette colour; otherwise the dominant group |
| FullscreenPlayer.HandlePlayPause | src/components/FullscreenPlayer.tsx:234-240 | with an audio element the playing flag flips; without one it is unchanged |
| HomePage.At | src/components/pages/HomePage.tsx:57-103 | `queue[i] \|\| null`: the entry when the index is in range |
| HomePage.Populate | src/components/pages/HomePage.tsx:57-103 | a loaded queue shows its first two entries with `pointer` at 2; a failed load keeps the state |
| HomePage.GetNextFrom | src/components/pages/HomePage.tsx:170-175 | the entry at `pointer`, none exactly when the queue is empty or exhausted |
| HomePage.SlotPlaySpec | src/components/pages/HomePage.tsx:105-126 | an empty slot does nothing; a play requests the slot's track from the panel's queue; the queue and `pointer` never change; a right-slot play shows the track on the left and the entry at `pointer` on the right |
| HomePage.SlotPlayRepeats | src/components/pages/HomePage.tsx:113-121 | as written, two right-slot plays after loading a queue of three or more show the third entry in both slots |
| HomePage.SlidingKeepsWindow | src/components/pages/HomePage.tsx:113-121 | with `pointer` advanced on each right-slot play, the slots keep showing the two entries before `pointer` |
| HomePage.ReplayWindowed | src/components/pages/HomePage.tsx:105-126 | any sequence of such plays keeps that window and the queue |
| HomePage.WindowDistinct | src/components/pages/HomePage.tsx:110 | with unique ids the two shown tracks differ, and a right-slot play requests its own queue position |
| HomePage.SlidingNeverRepeats | src/components/pages/HomePage.tsx:105-126 | with unique ids, after loading and any clicks, both slots never show the same track |
| HomePage.CoverImageUrl | src/components/pages/HomePage.tsx:177-180 | the logo for no artwork; else the first `-large` replaced by `-t300x300` |
| PlaylistsPage.CoverTrack | src/components/pages/PlaylistsPage.tsx:39-41 | the current track when the playlist holds its id, else the playlist's last track |
| PlaylistsPage.Usernames | src/components/pages/PlaylistsPage.tsx:235 | each track's username, in order |
| PlaylistsPage.ArtistNamesSpec | src/components/pages/PlaylistsPage.tsx:235-237 | at most four distinct names, each some track's artist; with fewer than four every artist is named |
| PlaylistsPage.ArtistNamesPrefix | src/components/pages/PlaylistsPage.tsx:235-237 | the names of a playlist's first tracks begin the playlist's names, in first-appearance order |
| PlaylistsPage.HandleCreateSpec | src/components/pages/PlaylistsPage.tsx:90-96 | a blank name does nothing; otherwise the command creates exactly `Trim` of the input, which is the input with its surrounding whitespace cut (`TrimmedOf`) and non-empty, and the form is reset |
| PlaylistsPage.HandlePlaylistClick | src/components/pages/PlaylistsPage.tsx:98-105 | a pending track is added to the clicked playlist and cleared; otherwise the playlist is selected |
| PlaylistsPage.HandleBack | src/components/pages/PlaylistsPage.tsx:107-113 | clears the pending track if any, else the selection |
| PlaylistsPage.Find | src/components/pages/PlaylistsPage.tsx:28 | `find` returns the first listed playlist with that id; none means no playlist has it |
| PlaylistsPage.HandleDownload | src/components/pages/PlaylistsPage.tsx:30-34 | a selected playlist that is found and has tracks is downloaded, by its name and tracks; no selection, no match or no tracks gives no command |
| PlaylistsPage.ChannelSum | src/components/pages/PlaylistsPage.tsx:60-65 | a channel's sum over `n` pixels lies in [0, 255n] |
| PlaylistsPage.Average | src/components/pages/PlaylistsPage.tsx:67-69 | the floored channel means are colour values; an image without pixels has none |
| PlaylistsPage.Boost | src/components/pages/PlaylistsPage.tsx:72-81 | a dull colour has no channel lowered and stays in range; any other colour is kept; black stays black |
| PlaylistsPage.AverageColor | src/components/pages/PlaylistsPage.tsx:57-69 | the pixel loop computes `Average` of the bytes |
| PlaylistsPage.ButtonColor | src/components/pages/PlaylistsPage.tsx:57-83 | the boosted average colour, in range; none exactly for an empty image |
| AudioAnalyzer.BandBounds | src/hooks/useAudioAnalyzer.ts:99-101 | the boundaries are ordered; bass is empty exactly below ten bins; 128 bins split at 12 and 51 |
| AudioAnalyzer.SumSplit | src/hooks/useAudioAnalyzer.ts:105-116 | a range sum splits at any inner point |
| AudioAnalyzer.Mean | src/hooks/useAudioAnalyzer.ts:118-121 | a non-empty band's level lies in [0, 1]; an empty band gives NaN |
| AudioAnalyzer.MeasureSpec | src/hooks/useAudioAnalyzer.ts:99-129 | the three bands partition the bins; levels of non-empty bands lie in [0, 1]; bass is NaN exactly below ten bins, treble and overall exactly for no bins |
| AudioAnalyzer.HundredBins | src/hooks/useAudioAnalyzer.ts:99-121 | 100 bins with the first ten full give bass 1, mid 0, treble 0, overall 0.1 |
| AudioAnalyzer.Analyze | src/hooks/useAudioAnalyzer.ts:97-129 | the four summing loops publish `Measure` of the bins |
| AudioAnalyzer.FrequencyAnalyzer.constructor | src/hooks/useAudioAnalyzer.ts:20-24 | idle levels, no frame, no context, analyser or binding |
| AudioAnalyzer.FrequencyAnalyzer.StartAnalysis | src/hooks/useAudioAnalyzer.ts:84-135 | with an analyser, the first frame publishes the levels and schedules the next; without one, nothing |
| AudioAnalyzer.FrequencyAnalyzer.Activate | src/hooks/useAudioAnalyzer.ts:26-82 | idle: the frame is cancelled and the levels are zeroed. Initialised: analysis restarts. Otherwise: context and analyser are created, an unbound element is bound at most once, and a failed binding is swallowed without starting analysis |
| AudioAnalyzer.FrequencyAnalyzer.OnFrame | src/hooks/useAudioAnalyzer.ts:91-131 | not playing clears the frame; playing publishes the new levels and reschedules |
| AudioAnalyzer.FrequencyAnalyzer.Cleanup | src/hooks/useAudioAnalyzer.ts:139-144 | the pending frame is cancelled |
| AudioAnalyzer.FrequencyAnalyzer.Unmount | src/hooks/useAudioAnalyzer.ts:147-155 | the frame is cancelled and the hook is no longer initialised |

## Left out

**Outside the model**
- Asynchrony, React rendering, DOM event listeners and `localStorage` serialisation are not modelled. Handlers are run to completion, one at a time.
- The stale closure of the `analyze` frame is not modelled. The playing flag a frame sees is a parameter of `OnFrame`.
- Overlapping `playTrack` calls and the stale closure through which `onEnded` calls `nextTrack` are not modelled. `OnEnded` runs `nextTrack` on the current session state.
- The audio element's events are reduced to flags, other than `onEnded`. The element's `src` is the resolved stream.
- `createdAt` of a new playlist is not modelled. The id is the decimal clock value, given as a parameter.
- The random user agent of the credential scan is not modelled (soundcloud.ts lines 11-16), because no observable result depends on it.
- The regular expressions are an oracle (`Web.scriptUrls`, `Web.clientIdIn`), as is JSON parsing (`Web.urlField`).
- The menu's screen position and the toasts are not modelled.

**Floating-point constants**
- The float constants are written as exact integer forms, for example `Math.floor(n * 0.4)` as `2n / 5`. The doubles nearest to 0.1, 0.4, 1.2, 0.3 and 0.02 differ from the exact values by less than 2^-50 relative. For the ranges involved (at most 2^16 bins, channels up to 255, pixel counts up to 10^4), that error cannot move a product across an integer or across the compared value.
- `AudioAnalyzer.Mean` and the other levels use exact reals, not IEEE doubles.
- `Text.LowerChar`: lower-cases ASCII letters only. JavaScript's `toLowerCase` also maps other Unicode letters, and some of them to more than one code unit ('İ', U+0130, becomes 'i' followed by U+0307).
- `Text.ToLower`: that it keeps the length holds of this ASCII model only. Under `toLowerCase` a title with 'İ' grows by one code unit.
- `TrackItem.Slug`: that the slug is no longer than the title holds of the ASCII lower-casing only, for the same reason. That it has no whitespace holds either way.

**Colour**
- `FullscreenPlayer.UpdateBackground`: the chosen group stands for the colour derived from it. Left out:
  - the running pairwise average of a group's channels;
  - the HSL conversion;
  - the saturation increase, which is floating-point colour arithmetic.
- Drawing the cover onto a canvas, image loading and CORS failures are also left out. The pixel bytes are given, or `None` when they cannot be read.
- `FullscreenPlayer.Tally`, `PlaylistsPage.AverageColor`: they require the byte length to be a multiple of 4. That always holds for canvas image data.
- The URL is given as its UTF-16 code units. Encoding a string into them is left out.

**Weaker contracts**
- `PlayerContext.Session.OnEnded`: an out-of-range chosen index is treated like no step: playing stops and nothing else changes. It can happen: with the row index of the first Finding, repeat-one on the last row chooses index `|q|`. The source's `nextTrack` then calls `playTrack` with the undefined `currentQueue[|q|]` (PlayerContext.tsx lines 292-293). That sets the current track to undefined and the index to `|q|`, and the recents updater reads `.id` of undefined. The model does not follow that path.
- `PlayerContext.Session.Advance`: when the chosen index lies outside the queue (an index passed in from outside, see Findings), the model changes nothing. The source would call `playTrack` with an undefined track. The model does not follow what that call then does with it.
- `MyWave.GetMyWaveQueue`: it does not state that the result ids are distinct. The Map keys are distinct JSON values, but a number and a string with the same digits both render as the same string id.
- `MyWave.GetMyWaveQueue`: it does not state which permutation the shuffle produces. `MyWave.Shuffle` states that it is one.
- `MyWave.ArtistItems`: the name-search fallback is taken as whatever the catalog returns. The source passes already mapped tracks (duration in seconds) through the output mapping again, which divides the duration by 1000 a second time. This is not stated as a property.
- `AudioAnalyzer.FrequencyAnalyzer.Activate`: the `resume()` of a suspended context is not modelled (useAudioAnalyzer.ts lines 57-59). Neither is its rejection, which ends the attempt after the context is created and before the analyser exists.
- `AudioAnalyzer.FrequencyAnalyzer.Activate`: binding is one step (`bindOk`). In the source, `createMediaElementSource` can succeed and a `connect` then throw (lines 69-70). That leaves a source recorded but the hook not initialised, so a later activation skips binding and starts analysis. The model records a source only together with a successful binding.
- `MyWave.NormalizeId`: the number an all-digit id spells is exact. `Number(artistId)` rounds above 2^53, so two such ids could be stored as one. Catalog user ids are far below that bound.
- `SoundCloud.CatalogClient.FetchApi`: a thrown `fetch` (network failure) is not modelled. Every request receives an answer from the oracle.

## Findings

| source | as written | input that shows it | evidently intended | confidence | as-written member | corrected member |
|---|---|---|---|---|---|---|
| src/components/pages/PlaylistsPage.tsx:299 (and src/components/pages/SearchPage.tsx:116), passed on at src/components/TrackItem.tsx:41-42 | list rows pass `index={position + 1}` to the row, and a click forwards it to `playTrack` as the queue index | a three-track playlist, click row 0: the queue index is 1, so "next" plays track 2 and skips track 1; on the last row with repeat-one, "next" asks for position 3 of a 3-track queue | the 0-based row position, so the clicked row is the queue's current entry | not executed | TrackItem.RowClickAsWritten | TrackItem.RowClickPlaysRow |
| src/components/pages/HomePage.tsx:113-121 | a right-slot play shows the played track on the left and `getNextFrom(state)` on the right, but never advances `pointer` | load a queue of three tracks, click the right slot twice: both slots show the third track | advance `pointer` past the revealed entry, so the window slides through the queue | not executed | HomePage.SlotPlayRepeats | HomePage.SlidingNeverRepeats |
