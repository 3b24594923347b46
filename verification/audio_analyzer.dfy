/**
 * The frequency analyser hook: the byte spectrum is split into bass, mid and
 * treble bands at integer boundaries, each band's mean is scaled to [0, 1],
 * and the hook's references (the pending animation frame, the one-shot
 * binding of the audio element to the analyser) follow the effect's
 * lifecycle.
 *
 * The spectrum a frame reads is a parameter; the audio graph, the suspended
 * context's resumption and the animation-frame scheduler are not modelled
 * beyond the flags they set.
 */
module AudioAnalyzer {
  import opened Media

  /** The analyser's FFT size; it exposes half as many frequency bins. */
  const FftSize: nat := 256
  const BinCount: nat := FftSize / 2

  /** `Math.floor(n * 0.1)`. */
  function BassEnd(n: nat): nat { n / 10 }

  /** `Math.floor(n * 0.4)`. */
  function MidEnd(n: nat): nat { 2 * n / 5 }

  /** The boundaries are ordered, the bass band is empty exactly below ten bins, and 128 bins split at 12 and 51. */
  lemma BandBounds(n: nat)
    ensures 0 <= BassEnd(n) <= MidEnd(n) <= n
    ensures BassEnd(n) == 0 <==> n < 10
    ensures n > 0 ==> MidEnd(n) < n
    ensures BassEnd(BinCount) == 12 && MidEnd(BinCount) == 51
  {
  }

  /** The sum of the bins in `[lo, hi)`. */
  function SumRange(s: seq<byte>, lo: nat, hi: nat): (r: int)
    requires lo <= hi <= |s|
    ensures 0 <= r <= 255 * (hi - lo)
    decreases hi - lo
  {
    if lo == hi then 0 else SumRange(s, lo, hi - 1) + s[hi - 1] as int
  }

  /** A range sum splits at any point inside it. */
  lemma {:induction false} SumSplit(s: seq<byte>, lo: nat, mid: nat, hi: nat)
    requires lo <= mid <= hi <= |s|
    ensures SumRange(s, lo, hi) == SumRange(s, lo, mid) + SumRange(s, mid, hi)
    decreases hi - mid
  {
    if mid < hi {
      SumSplit(s, lo, mid, hi - 1);
    }
  }

  /** A range of equal bins sums to their value times its length. */
  lemma {:induction false} SumConst(s: seq<byte>, lo: nat, hi: nat, c: byte)
    requires lo <= hi <= |s|
    requires forall i :: lo <= i < hi ==> s[i] == c
    ensures SumRange(s, lo, hi) == c as int * (hi - lo)
    decreases hi - lo
  {
    if lo < hi {
      SumConst(s, lo, hi - 1, c);
    }
  }

  /** A band level: its mean over 255, or `NaN` for an empty band (0 / 0). */
  datatype Level = Value(v: real) | NaN

  function Mean(s: seq<byte>, lo: nat, hi: nat): (r: Level)
    requires lo <= hi <= |s|
    ensures r.Value? <==> lo < hi
    ensures r.Value? ==> 0.0 <= r.v <= 1.0
  {
    if lo == hi then NaN
    else
      var sum := SumRange(s, lo, hi);
      var count := hi - lo;
      assert sum as real / count as real <= 255.0 by {
        assert sum as real <= 255.0 * count as real;
      }
      Value(sum as real / count as real / 255.0)
  }

  /** The hook's published data. */
  datatype Levels = Levels(bass: Level, mid: Level, treble: Level, overall: Level, frequencyData: seq<byte>)

  /** What an idle hook publishes: every level 0 and no bins. */
  const Idle := Levels(Value(0.0), Value(0.0), Value(0.0), Value(0.0), [])

  /** The levels one frame publishes for the spectrum `s`. */
  function Measure(s: seq<byte>): Levels {
    var n := |s|;
    Levels(Mean(s, 0, BassEnd(n)), Mean(s, BassEnd(n), MidEnd(n)), Mean(s, MidEnd(n), n), Mean(s, 0, n), s)
  }

  /**
   * The three bands partition the bins, so their sums add up to the overall
   * sum; every level of a non-empty band lies in [0, 1], and fewer than ten
   * bins leave the bass level undefined.
   */
  lemma MeasureSpec(s: seq<byte>)
    ensures var n := |s|;
      SumRange(s, 0, BassEnd(n)) + SumRange(s, BassEnd(n), MidEnd(n)) + SumRange(s, MidEnd(n), n) == SumRange(s, 0, n)
    ensures var m := Measure(s);
      && (m.bass.NaN? <==> |s| < 10)
      && (m.treble.NaN? <==> |s| == 0)
      && (m.overall.NaN? <==> |s| == 0)
      && (forall l :: l in [m.bass, m.mid, m.treble, m.overall] && l.Value? ==> 0.0 <= l.v <= 1.0)
      && m.frequencyData == s
  {
    var n := |s|;
    BandBounds(n);
    SumSplit(s, 0, BassEnd(n), n);
    SumSplit(s, BassEnd(n), MidEnd(n), n);
  }

  /** 100 bins whose first ten are 255 and the rest 0: bass 1, mid 0, treble 0, overall 0.1. */
  lemma HundredBins()
    ensures var s := seq(100, i => if i < 10 then 255 as byte else 0 as byte);
      Measure(s) == Levels(Value(1.0), Value(0.0), Value(0.0), Value(0.1), s)
  {
    var s := seq(100, i => if i < 10 then 255 as byte else 0 as byte);
    SumConst(s, 0, 10, 255);
    SumConst(s, 10, 40, 0);
    SumConst(s, 40, 100, 0);
    SumSplit(s, 0, 10, 100);
    SumConst(s, 10, 100, 0);
    assert BassEnd(100) == 10 && MidEnd(100) == 40;
    assert Mean(s, 0, 10) == Value(2550.0 / 10.0 / 255.0);
    assert Mean(s, 10, 40) == Value(0.0 / 30.0 / 255.0);
    assert Mean(s, 40, 100) == Value(0.0 / 60.0 / 255.0);
    assert Mean(s, 0, 100) == Value(2550.0 / 100.0 / 255.0);
  }

  /** One frame of `analyze`: the four summing loops over the filled bin array, then the four levels. */
  method Analyze(data: array<byte>) returns (r: Levels)
    ensures r == Measure(data[..])
  {
    ghost var s := data[..];
    var bufferLength := data.Length;
    var bassEnd := bufferLength / 10;
    var midEnd := 2 * bufferLength / 5;
    var trebleEnd := bufferLength;
    BandBounds(bufferLength);
    var bassSum, midSum, trebleSum, overallSum := 0, 0, 0, 0;
    for i := 0 to bassEnd
      invariant bassSum == SumRange(s, 0, i)
    {
      bassSum := bassSum + data[i] as int;
    }
    for i := bassEnd to midEnd
      invariant midSum == SumRange(s, bassEnd, i)
    {
      midSum := midSum + data[i] as int;
    }
    for i := midEnd to trebleEnd
      invariant trebleSum == SumRange(s, midEnd, i)
    {
      trebleSum := trebleSum + data[i] as int;
    }
    for i := 0 to bufferLength
      invariant overallSum == SumRange(s, 0, i)
    {
      overallSum := overallSum + data[i] as int;
    }
    var bass := if bassEnd == 0 then NaN else Value(bassSum as real / bassEnd as real / 255.0);
    var mid := if midEnd == bassEnd then NaN else Value(midSum as real / (midEnd - bassEnd) as real / 255.0);
    var treble := if trebleEnd == midEnd then NaN else Value(trebleSum as real / (trebleEnd - midEnd) as real / 255.0);
    var overall := if bufferLength == 0 then NaN else Value(overallSum as real / bufferLength as real / 255.0);
    r := Levels(bass, mid, treble, overall, data[..]);
  }

  /**
   * The hook's references and published data. `framePending` is a scheduled
   * animation frame; `hasSource` is the binding of the audio element to the
   * analyser, and `initialized` is set together with it.
   */
  class FrequencyAnalyzer {
    var data: Levels
    var framePending: bool
    var hasContext: bool
    var hasAnalyser: bool
    var hasSource: bool
    var initialized: bool

    /** A binding needs an analyser, and an analyser needs a context. */
    ghost predicate Valid()
      reads this
    {
      && (initialized ==> hasSource)
      && (hasSource ==> hasAnalyser)
      && (hasAnalyser ==> hasContext)
    }

    constructor ()
      ensures Valid()
      ensures data == Idle && !framePending && !hasContext && !hasAnalyser && !hasSource && !initialized
    {
      data := Idle;
      framePending := false;
      hasContext := false;
      hasAnalyser := false;
      hasSource := false;
      initialized := false;
    }

    /** `startAnalysis`: with an analyser, the first frame runs at once and schedules the next. */
    method StartAnalysis(spectrum: seq<byte>)
      requires |spectrum| == BinCount
      modifies this`data, this`framePending
      ensures hasAnalyser ==> data == Measure(spectrum) && framePending
      ensures !hasAnalyser ==> data == old(data) && framePending == old(framePending)
    {
      if !hasAnalyser {
        return;
      }
      var buffer := new byte[BinCount];
      forall i | 0 <= i < BinCount {
        buffer[i] := spectrum[i];
      }
      assert buffer[..] == spectrum;
      data := Analyze(buffer);
      framePending := true;
    }

    /**
     * The effect for an element and a playing flag. Idle: the pending frame
     * is cancelled and the levels are zeroed. Active: an initialised hook only
     * restarts analysis; otherwise the context and the analyser are created if
     * missing and an unbound element is bound (`bindOk`: the binding
     * succeeded). A failed binding is swallowed and analysis does not start.
     * The element is bound at most once: a binding is never undone, and one
     * is attempted only when there is none.
     */
    method Activate(hasElement: bool, isPlaying: bool, bindOk: bool, spectrum: seq<byte>)
      requires Valid() && |spectrum| == BinCount
      modifies this
      ensures Valid()
      ensures old(hasSource) ==> hasSource
      ensures !(hasElement && isPlaying) ==>
        && data == Idle && !framePending
        && hasContext == old(hasContext) && hasAnalyser == old(hasAnalyser)
        && hasSource == old(hasSource) && initialized == old(initialized)
      ensures hasElement && isPlaying && old(initialized) ==>
        && data == Measure(spectrum) && framePending
        && hasContext && hasAnalyser && hasSource && initialized
      ensures hasElement && isPlaying && !old(initialized) ==>
        && hasContext && hasAnalyser
        && hasSource == (old(hasSource) || bindOk)
        && initialized == (!old(hasSource) && bindOk)
        && (hasSource ==> data == Measure(spectrum) && framePending)
        && (!hasSource ==> data == old(data) && framePending == old(framePending))
    {
      if !hasElement || !isPlaying {
        framePending := false;
        data := Idle;
        return;
      }
      if initialized {
        StartAnalysis(spectrum);
        return;
      }
      hasContext := true;
      hasAnalyser := true;
      if !hasSource {
        if !bindOk {
          return;
        }
        hasSource := true;
        initialized := true;
      }
      StartAnalysis(spectrum);
    }

    /**
     * A scheduled frame fires with the playing flag its closure captured:
     * when not playing it clears the frame and stops; otherwise it publishes
     * the levels of the new spectrum and schedules itself again.
     */
    method OnFrame(isPlaying: bool, spectrum: seq<byte>)
      requires framePending && |spectrum| == BinCount
      modifies this`data, this`framePending
      ensures framePending == isPlaying
      ensures data == if isPlaying then Measure(spectrum) else old(data)
    {
      if !isPlaying {
        framePending := false;
        return;
      }
      var buffer := new byte[BinCount];
      forall i | 0 <= i < BinCount {
        buffer[i] := spectrum[i];
      }
      assert buffer[..] == spectrum;
      data := Analyze(buffer);
      framePending := true;
    }

    /** The effect's cleanup when the element or the playing flag changes: the pending frame is cancelled. */
    method Cleanup()
      modifies this`framePending
      ensures !framePending
    {
      framePending := false;
    }

    /** The unmount cleanup: the pending frame is cancelled and the hook is no longer initialised. */
    method Unmount()
      requires Valid()
      modifies this`framePending, this`initialized
      ensures Valid() && !framePending && !initialized
    {
      framePending := false;
      initialized := false;
    }
  }
}
