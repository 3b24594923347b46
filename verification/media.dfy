/**
 * The player's data model: catalog tracks with their playable encodings
 * ("transcodings"), user playlists and the repeat mode, plus the scalar
 * identifiers the catalog returns (numbers or strings).
 */
module Media {
  import opened Wrappers
  import opened Text

  /** An unsigned 8-bit value: a frequency bin or a colour channel. */
  newtype byte = x: int | 0 <= x < 256

  /** One playable encoding of a track: a resolution URL, a transport protocol and a MIME type. */
  datatype Transcoding = Transcoding(url: string, protocol: string, mimeType: string)

  datatype User = User(username: string, id: string)

  /**
   * A track as the player holds it: identifiers are strings, `duration` is in
   * seconds; `media` is `None` when the record carries no media block.
   */
  datatype Track = Track(
    id: string,
    title: string,
    user: User,
    duration: real,
    permalinkUrl: Option<string>,
    media: Option<seq<Transcoding>>,
    artworkUrl: Option<string>)

  datatype Playlist = Playlist(id: string, name: string, tracks: seq<Track>)

  datatype RepeatMode = Off | All | One

  /** A JSON scalar used as an identifier by the catalog: a number or a string. */
  datatype Scalar = Num(n: nat) | Str(s: string) {
    /** JavaScript truthiness: `0` and `""` are falsy. */
    predicate Truthy() {
      match this
      case Num(n) => n != 0
      case Str(s) => s != ""
    }

    /** `x.toString()`. */
    function ToString(): string {
      match this
      case Num(n) => Decimal(n)
      case Str(s) => s
    }
  }

  /** JavaScript truthiness of an optional string: present and non-empty. */
  predicate Present(s: Option<string>) {
    s.Some? && s.value != ""
  }

  /** `queue.findIndex(t => t.id === id)`: the first position holding that id, or -1. */
  function FindIndex(queue: seq<Track>, id: string): (r: int)
    ensures -1 <= r < |queue|
    ensures r >= 0 ==> queue[r].id == id && forall k :: 0 <= k < r ==> queue[k].id != id
    ensures r == -1 <==> forall k :: 0 <= k < |queue| ==> queue[k].id != id
  {
    if queue == [] then -1
    else if queue[0].id == id then 0
    else var r := FindIndex(queue[1..], id); if r == -1 then -1 else r + 1
  }

  predicate HasId(tracks: seq<Track>, id: string) {
    exists k :: 0 <= k < |tracks| && tracks[k].id == id
  }

  /** No two entries share an id. */
  predicate UniqueIds(tracks: seq<Track>) {
    forall i, j :: 0 <= i < j < |tracks| ==> tracks[i].id != tracks[j].id
  }
}
