/**
 * The fullscreen player: the background colour taken from the cover (the
 * most frequent quantised colour among its opaque pixels, when one is
 * frequent enough), the fallback colour picked from a fixed palette by a
 * 32-bit hash of the cover URL, the play/pause button, and the render
 * guards.
 *
 * The cover's RGBA bytes are a parameter (`None` when no drawing context is
 * available or reading the pixels is refused); the URL is given as its
 * UTF-16 code units. The HSL adjustment applied to the chosen group's colour
 * is not modelled, so a chosen group stands for the colour derived from it.
 */
module FullscreenPlayer {
  import opened Wrappers
  import opened Media
  import PlayerContext

  // ---- the URL hash and the palette ----

  /** A UTF-16 code unit, as `charCodeAt` returns it. */
  newtype CodeUnit = x: int | 0 <= x < 0x1_0000

  const Two32: int := 0x1_0000_0000
  const Two31: int := 0x8000_0000

  /** ECMAScript ToInt32: the value modulo 2^32, read as a signed 32-bit integer. */
  function ToInt32(x: int): (r: int)
    ensures -Two31 <= r < Two31
    ensures (r - x) % Two32 == 0
  {
    var m := x % Two32;
    if m >= Two31 then m - Two32 else m
  }

  /** ToInt32 depends only on the value modulo 2^32. */
  lemma ToInt32Congruent(a: int, b: int)
    requires (a - b) % Two32 == 0
    ensures ToInt32(a) == ToInt32(b)
  {
    var q := (a - b) / Two32;
    assert a == b + q * Two32;
    assert a % Two32 == b % Two32;
  }

  /** One step of the loop: `hash = ((hash << 5) - hash) + char`, then `hash & hash`. The shift works on ToInt32 of its operand. */
  function HashStep(h: int, c: CodeUnit): int {
    ToInt32(ToInt32(h * 32) - h + c as int)
  }

  /** The step is Java's `31 * h + c` on 32-bit integers. */
  lemma HashStepIs31(h: int, c: CodeUnit)
    ensures HashStep(h, c) == ToInt32(31 * h + c as int)
  {
    ToInt32Congruent(ToInt32(h * 32) - h + c as int, 31 * h + c as int);
  }

  /** The hash of the code units `s`, folded from the left starting at 0. */
  function Hash(s: seq<CodeUnit>): (r: int)
    ensures -Two31 <= r < Two31
  {
    if s == [] then 0 else HashStep(Hash(s[..|s| - 1]), s[|s| - 1])
  }

  /** The polynomial `s[0]·31^(n-1) + … + s[n-1]` over the integers. */
  function Poly(s: seq<CodeUnit>): int {
    if s == [] then 0 else 31 * Poly(s[..|s| - 1]) + s[|s| - 1] as int
  }

  /** The hash is the polynomial reduced to a signed 32-bit integer, as Java's `String.hashCode`. */
  lemma {:induction false} HashIsPoly(s: seq<CodeUnit>)
    ensures Hash(s) == ToInt32(Poly(s))
    ensures (Hash(s) - Poly(s)) % Two32 == 0
  {
    if s != [] {
      var p := s[..|s| - 1];
      var c := s[|s| - 1];
      HashIsPoly(p);
      HashStepIs31(Hash(p), c);
      StepCongruent(Hash(p), Poly(p), c as int);
      ToInt32Congruent(31 * Hash(p) + c as int, Poly(s));
    }
  }

  /** Congruence modulo 2^32 survives `x -> 31 * x + c`. */
  lemma StepCongruent(a: int, b: int, c: int)
    requires (a - b) % Two32 == 0
    ensures ((31 * a + c) - (31 * b + c)) % Two32 == 0
  {
    var q := (a - b) / Two32;
    assert a - b == q * Two32;
    assert (31 * a + c) - (31 * b + c) == (31 * q) * Two32;
  }

  /** `getColorFromUrl`'s loop over the URL's code units. */
  method HashCode(url: seq<CodeUnit>) returns (hash: int)
    ensures hash == Hash(url)
  {
    hash := 0;
    for i := 0 to |url|
      invariant hash == Hash(url[..i])
    {
      assert url[..i + 1][..i] == url[..i];
      hash := ToInt32(hash * 32) - hash + url[i] as int;
      hash := ToInt32(hash);
    }
    assert url[..|url|] == url;
  }

  /** The ten fallback colours. */
  const Palette: seq<string> := [
    "rgb(45, 25, 85)", "rgb(85, 25, 45)", "rgb(25, 65, 85)", "rgb(65, 45, 25)", "rgb(25, 85, 65)",
    "rgb(85, 65, 25)", "rgb(65, 25, 85)", "rgb(45, 85, 25)", "rgb(25, 45, 85)", "rgb(85, 45, 65)"]

  /** `Math.abs(hash) % 10`; the absolute value of -2^31 is 2^31 (no 32-bit overflow in a double). */
  function PaletteIndex(h: int): (r: nat)
    ensures r < |Palette|
  {
    (if h < 0 then -h else h) % |Palette|
  }

  /** `getColorFromUrl`: a palette colour chosen by the URL's hash. */
  function ColorFromUrl(url: seq<CodeUnit>): (r: string)
    ensures r in Palette
    ensures url == [] ==> r == Palette[0]
  {
    Palette[PaletteIndex(Hash(url))]
  }

  /** The fallback colour as `getColorFromUrl` computes it, by the loop. */
  method FallbackColor(url: seq<CodeUnit>) returns (color: string)
    ensures color == ColorFromUrl(url) && color in Palette
  {
    var hash := HashCode(url);
    color := Palette[PaletteIndex(hash)];
  }

  /** Two one-unit URLs: `a` hashes to 97 and `ab` to 31·97 + 98, picking entries 7 and 5. */
  lemma SmallHashes()
    ensures Hash([97 as CodeUnit]) == 97 && ColorFromUrl([97 as CodeUnit]) == Palette[7]
    ensures Hash([97 as CodeUnit, 98 as CodeUnit]) == 3105 && ColorFromUrl([97 as CodeUnit, 98 as CodeUnit]) == Palette[5]
  {
    var a: seq<CodeUnit> := [97 as CodeUnit];
    var ab: seq<CodeUnit> := [97 as CodeUnit, 98 as CodeUnit];
    assert ab[..1] == a;
    HashStepIs31(0, 97 as CodeUnit);
    assert Hash(a) == ToInt32(97);
    HashStepIs31(97, 98 as CodeUnit);
    assert Hash(ab) == ToInt32(3105);
    assert PaletteIndex(97) == 7 && PaletteIndex(3105) == 5;
  }

  /** A hash of -2^31 (the one value whose negation overflows 32 bits) still picks a palette entry: 2^31 % 10 is 8. */
  lemma MinHashIndex()
    ensures PaletteIndex(-Two31) == 8
  {
  }

  // ---- colour groups ----

  /** A quantised colour: each channel floored to a multiple of 20. */
  datatype Key = Key(r: int, g: int, b: int)

  /** `Math.floor(c / 20) * 20`. */
  function Quantize(c: byte): (q: int)
    ensures q % 20 == 0 && q <= c as int < q + 20 && 0 <= q <= 240
  {
    (c as int / 20) * 20
  }

  /** A colour group: its key and how many opaque pixels fell into it. */
  datatype Entry = Entry(key: Key, count: nat)

  /** Pixel `p` of the RGBA data is counted: its alpha is at least 128. */
  predicate Opaque(data: seq<byte>, p: nat)
    requires 4 * p + 4 <= |data|
  {
    data[4 * p + 3] >= 128
  }

  function PixelKey(data: seq<byte>, p: nat): Key
    requires 4 * p + 4 <= |data|
  {
    Key(Quantize(data[4 * p]), Quantize(data[4 * p + 1]), Quantize(data[4 * p + 2]))
  }

  /** The number of opaque pixels among the first `n`. */
  function OpaqueCount(data: seq<byte>, n: nat): (r: nat)
    requires 4 * n <= |data|
    ensures r <= n
  {
    if n == 0 then 0 else OpaqueCount(data, n - 1) + (if Opaque(data, n - 1) then 1 else 0)
  }

  /** The number of opaque pixels among the first `n` whose key is `key`. */
  function KeyCount(data: seq<byte>, n: nat, key: Key): nat
    requires 4 * n <= |data|
  {
    if n == 0 then 0
    else KeyCount(data, n - 1, key) + (if Opaque(data, n - 1) && PixelKey(data, n - 1) == key then 1 else 0)
  }

  /** The position of the group with `key`, or -1. */
  function IndexOfKey(es: seq<Entry>, key: Key): (r: int)
    ensures -1 <= r < |es|
    ensures r >= 0 ==> es[r].key == key
    ensures r == -1 <==> forall i :: 0 <= i < |es| ==> es[i].key != key
  {
    if es == [] then -1
    else if es[|es| - 1].key == key then |es| - 1
    else IndexOfKey(es[..|es| - 1], key)
  }

  /** The map update for one opaque pixel: its group's count goes up, or a new group with count 1 is appended. */
  function Bump(es: seq<Entry>, key: Key): seq<Entry> {
    var i := IndexOfKey(es, key);
    if i == -1 then es + [Entry(key, 1)] else es[i := Entry(key, es[i].count + 1)]
  }

  /** The groups after the first `n` pixels, in the order their keys first appeared. */
  function Groups(data: seq<byte>, n: nat): seq<Entry>
    requires 4 * n <= |data|
  {
    if n == 0 then []
    else
      var es := Groups(data, n - 1);
      if Opaque(data, n - 1) then Bump(es, PixelKey(data, n - 1)) else es
  }

  function SumCounts(es: seq<Entry>): nat {
    if es == [] then 0 else SumCounts(es[..|es| - 1]) + es[|es| - 1].count
  }

  /** No two groups share a key. */
  predicate DistinctKeys(es: seq<Entry>) {
    forall i, j :: 0 <= i < j < |es| ==> es[i].key != es[j].key
  }

  /**
   * The groups after `n` pixels are exactly the keys of the opaque pixels
   * among them, once each, each with the number of those pixels that have
   * it; their counts add up to the number of opaque pixels.
   */
  ghost predicate Tallied(data: seq<byte>, n: nat, es: seq<Entry>)
    requires 4 * n <= |data|
  {
    && DistinctKeys(es)
    && (forall i :: 0 <= i < |es| ==> es[i].count == KeyCount(data, n, es[i].key) && es[i].count >= 1)
    && (forall key :: IndexOfKey(es, key) >= 0 <==> KeyCount(data, n, key) > 0)
    && SumCounts(es) == OpaqueCount(data, n)
  }

  /** The map the pixel loop builds is a faithful tally of the opaque pixels' keys. */
  lemma GroupsSpec(data: seq<byte>, n: nat)
    requires 4 * n <= |data|
    ensures Tallied(data, n, Groups(data, n))
  {
    var es := Groups(data, n);
    GroupsDistinct(data, n);
    GroupsSum(data, n);
    forall i | 0 <= i < |es|
      ensures es[i].count == KeyCount(data, n, es[i].key) && es[i].count >= 1
    {
      GroupOfKey(data, n, es[i].key);
    }
    forall k
      ensures IndexOfKey(es, k) >= 0 <==> KeyCount(data, n, k) > 0
    {
      GroupOfKey(data, n, k);
    }
  }

  /** Searching after an append finds the new group when it has the key, else what it found before. */
  lemma IndexAfterAppend(es: seq<Entry>, e: Entry, k: Key)
    ensures IndexOfKey(es + [e], k) == if e.key == k then |es| else IndexOfKey(es, k)
  {
    assert (es + [e])[..|es|] == es;
  }

  /** Replacing a group by one with the same key moves no key. */
  lemma {:induction false} IndexAfterUpdate(es: seq<Entry>, i: nat, e: Entry, k: Key)
    requires i < |es| && e.key == es[i].key
    ensures IndexOfKey(es[i := e], k) == IndexOfKey(es, k)
    decreases |es|
  {
    var last := |es| - 1;
    if i < last {
      assert es[i := e][..last] == es[..last][i := e];
      IndexAfterUpdate(es[..last], i, e, k);
    } else {
      assert es[i := e][..last] == es[..last];
    }
  }

  /** The group a key is found in counts that key's opaque pixels; a key not found has none. */
  lemma {:induction false} GroupOfKey(data: seq<byte>, n: nat, k: Key)
    requires 4 * n <= |data|
    ensures var es := Groups(data, n); var i := IndexOfKey(es, k);
      && (i >= 0 ==> es[i].count == KeyCount(data, n, k) && es[i].count >= 1)
      && (i == -1 ==> KeyCount(data, n, k) == 0)
  {
    if n > 0 {
      GroupOfKey(data, n - 1, k);
      var es := Groups(data, n - 1);
      if Opaque(data, n - 1) {
        var key := PixelKey(data, n - 1);
        var j := IndexOfKey(es, key);
        if j == -1 {
          IndexAfterAppend(es, Entry(key, 1), k);
        } else {
          IndexAfterUpdate(es, j, Entry(key, es[j].count + 1), k);
        }
      }
    }
  }

  /** No key is added twice. */
  lemma {:induction false} GroupsDistinct(data: seq<byte>, n: nat)
    requires 4 * n <= |data|
    ensures DistinctKeys(Groups(data, n))
  {
    if n > 0 {
      GroupsDistinct(data, n - 1);
      var es := Groups(data, n - 1);
      if Opaque(data, n - 1) {
        var key := PixelKey(data, n - 1);
        var j := IndexOfKey(es, key);
        if j >= 0 {
          var r := es[j := Entry(key, es[j].count + 1)];
          assert forall i :: 0 <= i < |es| ==> r[i].key == es[i].key;
        }
      }
    }
  }

  /** Each opaque pixel adds one to exactly one group. */
  lemma {:induction false} GroupsSum(data: seq<byte>, n: nat)
    requires 4 * n <= |data|
    ensures SumCounts(Groups(data, n)) == OpaqueCount(data, n)
  {
    if n > 0 {
      GroupsSum(data, n - 1);
      var es := Groups(data, n - 1);
      if Opaque(data, n - 1) {
        var key := PixelKey(data, n - 1);
        var j := IndexOfKey(es, key);
        if j == -1 {
          SumAppend(es, Entry(key, 1));
        } else {
          SumUpdate(es, j, Entry(key, es[j].count + 1));
        }
      }
    }
  }

  lemma SumAppend(es: seq<Entry>, e: Entry)
    ensures SumCounts(es + [e]) == SumCounts(es) + e.count
  {
    assert (es + [e])[..|es|] == es;
  }

  /** Replacing one group changes the sum by the difference of the counts. */
  lemma {:induction false} SumUpdate(es: seq<Entry>, i: nat, e: Entry)
    requires i < |es|
    ensures SumCounts(es[i := e]) == SumCounts(es) - es[i].count + e.count
  {
    var last := |es| - 1;
    assert es[i := e][..last] == if i == last then es[..last] else es[..last][i := e];
    if i < last {
      SumUpdate(es[..last], i, e);
    }
  }

  /** The pixel loop of `extractDominantColor`: the groups in insertion order and the number of opaque pixels. */
  method Tally(data: array<byte>) returns (groups: seq<Entry>, total: nat)
    requires data.Length % 4 == 0
    ensures groups == Groups(data[..], data.Length / 4)
    ensures total == OpaqueCount(data[..], data.Length / 4)
  {
    groups := [];
    total := 0;
    var i := 0;
    while i < data.Length
      invariant 0 <= i <= data.Length && i % 4 == 0
      invariant groups == Groups(data[..], i / 4)
      invariant total == OpaqueCount(data[..], i / 4)
    {
      if data[i + 3] >= 128 {
        total := total + 1;
        var key := Key(Quantize(data[i]), Quantize(data[i + 1]), Quantize(data[i + 2]));
        var j := IndexOfKey(groups, key);
        if j >= 0 {
          groups := groups[j := Entry(key, groups[j].count + 1)];
        } else {
          groups := groups + [Entry(key, 1)];
        }
      }
      i := i + 4;
    }
  }

  // ---- the significance threshold and the dominant group ----

  function MaxReal(a: real, b: real): real {
    if a >= b then a else b
  }

  /**
   * `count >= Math.max(1, total * 0.02)` for a group (count at least 1) is
   * `50 * count >= total`.
   */
  lemma MinCountExact(count: nat, total: nat)
    requires count >= 1
    ensures count as real >= MaxReal(1.0, total as real * 0.02) <==> 50 * count >= total
  {
  }

  /** A group is significant when it holds at least 2% of the opaque pixels. */
  predicate Significant(e: Entry, total: nat) {
    50 * e.count >= total
  }

  /** The significant groups, in map order. */
  function Survivors(es: seq<Entry>, total: nat): (r: seq<Entry>)
    ensures |r| <= |es|
    ensures forall e :: e in r <==> e in es && Significant(e, total)
  {
    if es == [] then []
    else Survivors(es[..|es| - 1], total) + (if Significant(es[|es| - 1], total) then [es[|es| - 1]] else [])
  }

  /**
   * The head of the survivors sorted by count, descending, with a stable
   * sort: the first survivor whose count is the largest.
   */
  function FirstMax(ss: seq<Entry>): (i: nat)
    requires ss != []
    ensures i < |ss|
    ensures forall j :: 0 <= j < |ss| ==> ss[j].count <= ss[i].count
    ensures forall j :: 0 <= j < i ==> ss[j].count < ss[i].count
  {
    if |ss| == 1 then 0
    else
      var i := FirstMax(ss[..|ss| - 1]);
      if ss[|ss| - 1].count > ss[i].count then |ss| - 1 else i
  }

  /** The dominant group, or `None` when there is no group or none is significant (the URL fallback). */
  function Dominant(es: seq<Entry>, total: nat): (r: Option<Entry>)
    ensures r.Some? ==> r.value in es && Significant(r.value, total)
    ensures r.Some? ==> forall e :: e in es && Significant(e, total) ==> e.count <= r.value.count
    ensures r.None? <==> forall e :: e in es ==> !Significant(e, total)
  {
    var ss := Survivors(es, total);
    if ss == [] then None
    else
      var i := FirstMax(ss);
      assert ss[i] in ss;
      assert forall e :: e in ss ==> e.count <= ss[i].count;
      Some(ss[i])
  }

  /** With at most 50 groups covering every opaque pixel, some group is significant. */
  lemma {:induction false} FewGroupsSurvive(es: seq<Entry>, total: nat)
    requires 0 < |es| <= 50 && SumCounts(es) == total && total > 0
    ensures Dominant(es, total).Some?
  {
    if forall e :: e in es ==> !Significant(e, total) {
      SumBelow(es, total);
      assert 50 * total <= |es| * (total - 1);
      MulMono(|es|, 50, total - 1);
      assert false;
    }
  }

  /** When no group is significant, 50 times the sum is at most `|es| * (total - 1)`. */
  lemma {:induction false} SumBelow(es: seq<Entry>, total: nat)
    requires total >= 1
    requires forall e :: e in es ==> !Significant(e, total)
    ensures 50 * SumCounts(es) <= |es| * (total - 1)
  {
    if es != [] {
      var p := es[..|es| - 1];
      assert forall e :: e in p ==> e in es;
      SumBelow(p, total);
      assert es[|es| - 1] in es;
      MulSucc(|p|, total - 1);
    }
  }

  lemma MulSucc(a: nat, t: nat)
    ensures (a + 1) * t == a * t + t
  {
  }

  lemma MulMono(a: nat, b: nat, c: nat)
    requires a <= b
    ensures a * c <= b * c
  {
  }

  /** What the cover's pixels give: `None` for the URL fallback. */
  function DominantOf(data: seq<byte>): (r: Option<Entry>)
    requires |data| % 4 == 0
  {
    var n := |data| / 4;
    Dominant(Groups(data, n), OpaqueCount(data, n))
  }

  /**
   * The dominant group is the key of at least 2% of the opaque pixels, and
   * no key holds more of them; a cover without an opaque pixel has none.
   */
  lemma DominantOfSpec(data: seq<byte>)
    requires |data| % 4 == 0
    ensures var n := |data| / 4; var r := DominantOf(data);
      && (OpaqueCount(data, n) == 0 ==> r.None?)
      && (r.Some? ==>
            && r.value.count == KeyCount(data, n, r.value.key)
            && 50 * r.value.count >= OpaqueCount(data, n)
            && forall key :: 50 * KeyCount(data, n, key) >= OpaqueCount(data, n) ==> KeyCount(data, n, key) <= r.value.count)
  {
    var n := |data| / 4;
    var es := Groups(data, n);
    GroupsSpec(data, n);
    if OpaqueCount(data, n) == 0 {
      assert es == [];
    }
    var r := DominantOf(data);
    if r.Some? {
      var i :| 0 <= i < |es| && es[i] == r.value;
      forall key | 50 * KeyCount(data, n, key) >= OpaqueCount(data, n)
        ensures KeyCount(data, n, key) <= r.value.count
      {
        if KeyCount(data, n, key) > 0 {
          var j := IndexOfKey(es, key);
          assert es[j] in es;
        }
      }
    }
  }

  // ---- the background and the controls ----

  /** The background: the dark default, a colour derived from the dominant group, or a palette colour. */
  datatype Background = Dark | FromGroup(group: Entry) | FromPalette(color: string)

  /**
   * `updateFullscreenBackground` on a mounted player: a cover that has not
   * loaded gives the dark default; otherwise the pixels' dominant group, and
   * the URL's palette colour when the pixels cannot be read or no group is
   * significant.
   */
  method UpdateBackground(loaded: bool, pixels: Option<array<byte>>, url: seq<CodeUnit>) returns (bg: Background)
    requires pixels.Some? ==> pixels.value.Length % 4 == 0
    ensures !loaded ==> bg == Dark
    ensures loaded && pixels.None? ==> bg == FromPalette(ColorFromUrl(url))
    ensures loaded && pixels.Some? ==>
      bg == match DominantOf(pixels.value[..])
        case Some(e) => FromGroup(e)
        case None => FromPalette(ColorFromUrl(url))
  {
    if !loaded {
      return Dark;
    }
    if pixels.None? {
      var color := FallbackColor(url);
      return FromPalette(color);
    }
    var groups, total := Tally(pixels.value);
    if |groups| == 0 {
      var color := FallbackColor(url);
      return FromPalette(color);
    }
    var dominant := Dominant(groups, total);
    if dominant.None? {
      var color := FallbackColor(url);
      return FromPalette(color);
    }
    bg := FromGroup(dominant.value);
  }

  /** The player is rendered, and its background refreshed, only while visible with a current track. */
  predicate Renders(visible: bool, current: Option<Track>) {
    visible && current.Some?
  }

  /** `handlePlayPause`: pause while playing, resume otherwise; with an audio element the playing flag flips. */
  method HandlePlayPause(s: PlayerContext.Session)
    modifies s`isPlaying
    ensures s.hasAudio ==> s.isPlaying == !old(s.isPlaying)
    ensures !s.hasAudio ==> s.isPlaying == old(s.isPlaying)
  {
    if s.isPlaying {
      s.Pause();
    } else {
      s.Resume();
    }
  }
}
