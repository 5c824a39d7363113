/** The segmentation block of `process_audio`: segment length (minutes) and
    overlap (seconds) become milliseconds, a segment length that does not
    exceed the overlap is refused, and the recording is cut into windows
    `[i * eff, min(total, i * eff + length))` with `eff = length - overlap`.
    Decoding, slicing and exporting the audio belong to the audio library and
    are not modelled: a window is the pair of millisecond offsets handed to it. */
module Segmenter {

  /** The millisecond range `audio[startMs:endMs]` of one segment. */
  datatype Window = Window(startMs: int, endMs: int)

  datatype Segmentation =
    | InvalidConfig
    | Segments(windows: seq<Window>)

  function Min(a: int, b: int): int {
    if a <= b then a else b
  }

  /** `segment_length * 60 * 1000`. */
  function SegmentLengthMs(minutes: nat): nat {
    minutes * 60 * 1000
  }

  /** `overlap * 1000`. */
  function OverlapMs(seconds: nat): nat {
    seconds * 1000
  }

  /** The number of segments: Python's `range((total - overlap + eff - 1) // eff)`,
      which is empty when that quotient is not positive. It is the ceiling of
      `(total - overlap) / eff`, and 0 when the recording is no longer than the
      overlap. */
  function SegmentCount(totalMs: nat, lengthMs: nat, overlapMs: nat): (n: nat)
    requires overlapMs < lengthMs
    ensures n * (lengthMs - overlapMs) >= totalMs - overlapMs
    ensures n == 0 || (n - 1) * (lengthMs - overlapMs) < totalMs - overlapMs
    ensures n == 0 <==> totalMs <= overlapMs
  {
    var eff := lengthMs - overlapMs;
    var a := totalMs - overlapMs + eff - 1;
    var q := a / eff;
    assert a == q * eff + a % eff && 0 <= a % eff < eff;
    assert q * eff >= totalMs - overlapMs;
    assert (q - 1) * eff == q * eff - eff;
    if q < 0 then 0 else q
  }

  /** Window `k`: it starts `k` effective lengths in and is clamped to the end
      of the recording. */
  function WindowAt(k: int, totalMs: nat, lengthMs: nat, overlapMs: nat): Window
    requires overlapMs < lengthMs
  {
    var start := k * (lengthMs - overlapMs);
    Window(start, Min(totalMs, start + lengthMs))
  }

  /** The windows the segment-export loop of `process_audio` produces, in order. */
  function Windows(totalMs: nat, lengthMs: nat, overlapMs: nat): seq<Window>
    requires overlapMs < lengthMs
  {
    seq(SegmentCount(totalMs, lengthMs, overlapMs), k => WindowAt(k, totalMs, lengthMs, overlapMs))
  }

  /** What segmentation yields for a configuration given in milliseconds. */
  function Plan(totalMs: nat, lengthMs: nat, overlapMs: nat): Segmentation {
    if lengthMs <= overlapMs then InvalidConfig else Segments(Windows(totalMs, lengthMs, overlapMs))
  }

  /** The segmentation loop of `process_audio`. The configuration is refused
      before any segment is produced exactly when the segment length does not
      exceed the overlap; otherwise the windows are those of `Windows`. */
  method Segment(segmentLengthMinutes: nat, overlapSeconds: nat, totalMs: nat) returns (r: Segmentation)
    ensures r.InvalidConfig? <==> SegmentLengthMs(segmentLengthMinutes) <= OverlapMs(overlapSeconds)
    ensures r == Plan(totalMs, SegmentLengthMs(segmentLengthMinutes), OverlapMs(overlapSeconds))
  {
    var lengthMs := segmentLengthMinutes * 60 * 1000;
    var overlapMs := overlapSeconds * 1000;
    if lengthMs <= overlapMs {
      return InvalidConfig;
    }
    var effectiveMs := lengthMs - overlapMs;
    var q := (totalMs - overlapMs + effectiveMs - 1) / effectiveMs;
    var count: nat := if q < 0 then 0 else q;
    var windows: seq<Window> := [];
    var i := 0;
    while i < count
      invariant 0 <= i <= count
      invariant windows == seq(i, k => WindowAt(k, totalMs, lengthMs, overlapMs))
    {
      var startMs := i * effectiveMs;
      var endMs := Min(totalMs, startMs + lengthMs);
      windows := windows + [Window(startMs, endMs)];
      i := i + 1;
    }
    assert count == SegmentCount(totalMs, lengthMs, overlapMs);
    r := Segments(windows);
  }

  lemma MulMonotone(a: int, b: int, c: nat)
    requires a <= b
    ensures a * c <= b * c
  {
    assert b * c - a * c == (b - a) * c;
  }

  /** Window `k` of `n` starts before `total - overlap`, and the one after it
      starts strictly later. */
  lemma WindowStartBound(k: int, totalMs: nat, lengthMs: nat, overlapMs: nat)
    requires overlapMs < lengthMs
    requires 0 <= k < SegmentCount(totalMs, lengthMs, overlapMs)
    ensures 0 <= k * (lengthMs - overlapMs) < totalMs - overlapMs
    ensures (k + 1) * (lengthMs - overlapMs) == k * (lengthMs - overlapMs) + (lengthMs - overlapMs)
  {
    var n := SegmentCount(totalMs, lengthMs, overlapMs);
    MulMonotone(k, n - 1, lengthMs - overlapMs);
    MulMonotone(0, k, lengthMs - overlapMs);
  }

  /** Every window lies inside the recording, is non-empty and at most one
      segment length long; consecutive windows start exactly one effective
      length apart and leave no gap; every window but the last has the full
      length and overlaps its successor by exactly the overlap. */
  lemma {:induction false} WindowsShape(totalMs: nat, lengthMs: nat, overlapMs: nat)
    requires overlapMs < lengthMs
    ensures var w := Windows(totalMs, lengthMs, overlapMs);
      && (forall k :: 0 <= k < |w| ==>
            0 <= w[k].startMs < w[k].endMs <= totalMs
            && w[k].endMs - w[k].startMs <= lengthMs)
      && (forall k :: 0 <= k < |w| - 1 ==>
            && w[k + 1].startMs == w[k].startMs + (lengthMs - overlapMs)
            && w[k + 1].startMs <= w[k].endMs
            && w[k].endMs - w[k].startMs == lengthMs
            && w[k].endMs - w[k + 1].startMs == overlapMs)
  {
    var w := Windows(totalMs, lengthMs, overlapMs);
    var n := |w|;
    forall k | 0 <= k < n
      ensures 0 <= w[k].startMs < w[k].endMs <= totalMs
      ensures w[k].endMs - w[k].startMs <= lengthMs
    {
      WindowStartBound(k, totalMs, lengthMs, overlapMs);
    }
    forall k | 0 <= k < n - 1
      ensures w[k + 1].startMs == w[k].startMs + (lengthMs - overlapMs)
      ensures w[k].endMs - w[k].startMs == lengthMs
      ensures w[k].endMs - w[k + 1].startMs == overlapMs
    {
      WindowStartBound(k, totalMs, lengthMs, overlapMs);
      WindowStartBound(k + 1, totalMs, lengthMs, overlapMs);
    }
  }

  /** With a recording longer than the overlap, the first window starts at 0
      and the last ends exactly at the end of the recording; otherwise there
      are no windows at all. */
  lemma WindowsEnds(totalMs: nat, lengthMs: nat, overlapMs: nat)
    requires overlapMs < lengthMs
    ensures var w := Windows(totalMs, lengthMs, overlapMs);
      && (totalMs <= overlapMs <==> w == [])
      && (w != [] ==> w[0].startMs == 0 && w[|w| - 1].endMs == totalMs)
  {
    var w := Windows(totalMs, lengthMs, overlapMs);
    var n := |w|;
    var eff := lengthMs - overlapMs;
    if n > 0 {
      assert (n - 1) * eff + lengthMs == n * eff + overlapMs;
    }
  }

  lemma FloorDivision(t: nat, d: nat)
    requires d > 0
    ensures (t / d) * d <= t < (t / d) * d + d
  {
    assert t == (t / d) * d + t % d;
  }

  /** The windows cover the whole recording: every millisecond offset before
      the end lies in some window. */
  lemma {:induction false} WindowsCover(totalMs: nat, lengthMs: nat, overlapMs: nat, t: nat)
    requires overlapMs < lengthMs
    requires overlapMs < totalMs
    requires t < totalMs
    ensures var w := Windows(totalMs, lengthMs, overlapMs);
      exists k :: 0 <= k < |w| && w[k].startMs <= t < w[k].endMs
  {
    var w := Windows(totalMs, lengthMs, overlapMs);
    var n := |w|;
    var eff := lengthMs - overlapMs;
    var k := t / eff;
    FloorDivision(t, eff);
    if k < n {
      assert w[k] == WindowAt(k, totalMs, lengthMs, overlapMs);
      assert w[k].startMs <= t < w[k].endMs;
    } else {
      MulMonotone(n - 1, k, eff);
      assert (n - 1) * eff + lengthMs == n * eff + overlapMs;
      assert w[n - 1] == WindowAt(n - 1, totalMs, lengthMs, overlapMs);
      assert w[n - 1].startMs <= t < w[n - 1].endMs;
    }
  }

  /** 130 s of audio in 60 s segments with 10 s overlap: three windows, the
      last one shorter. */
  lemma ExampleThreeWindows()
    ensures Plan(130000, 60000, 10000)
         == Segments([Window(0, 60000), Window(50000, 110000), Window(100000, 130000)])
  {
    assert SegmentCount(130000, 60000, 10000) == 3;
  }

  /** A 5 s segment with a 10 s overlap is refused. */
  lemma ExampleInvalidConfig()
    ensures Plan(130000, 5000, 10000) == InvalidConfig
  {
  }
}
