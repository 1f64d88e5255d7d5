/**
 * `skewTimeline`: lifts the positive samples of a copy of a timeline by a
 * fraction of its value range so that two identical series stay visible.
 */
module Skew {
  import opened Wrappers
  import opened Timelines

  /** The least sample, found by scanning left to right and keeping strict improvements. */
  function SeqMin(s: seq<real>): (m: real)
    requires |s| > 0
    ensures m in s
    ensures forall k :: 0 <= k < |s| ==> m <= s[k]
  {
    if |s| == 1 then s[0]
    else
      var m' := SeqMin(s[..|s| - 1]);
      if s[|s| - 1] < m' then s[|s| - 1] else m'
  }

  /** The greatest sample, found the same way. */
  function SeqMax(s: seq<real>): (m: real)
    requires |s| > 0
    ensures m in s
    ensures forall k :: 0 <= k < |s| ==> s[k] <= m
  {
    if |s| == 1 then s[0]
    else
      var m' := SeqMax(s[..|s| - 1]);
      if s[|s| - 1] > m' then s[|s| - 1] else m'
  }

  /** The per-unit skew `(max - min) / 100`, 100 being the chart height in pixels; zero for an empty sample array. */
  function Spread(s: seq<real>): (r: real)
    ensures r >= 0.0
    ensures |s| > 0 ==> r * 100.0 == SeqMax(s) - SeqMin(s)
  {
    if |s| == 0 then 0.0 else (SeqMax(s) - SeqMin(s)) / 100.0
  }

  /** How far each positive sample is lifted: `skew * factor`. */
  function SkewShift(s: seq<real>, factor: real): (r: real)
    ensures factor >= 0.0 ==> r >= 0.0
    ensures r > 0.0 <==> factor > 0.0 && |s| > 0 && SeqMax(s) > SeqMin(s)
  {
    Spread(s) * factor
  }

  /** The `map` step: non-positive samples become 0, positive ones are raised by `shift`. */
  function SkewSamples(s: seq<real>, shift: real): (r: seq<real>)
    ensures |r| == |s|
    ensures forall k :: 0 <= k < |s| ==> r[k] == if s[k] <= 0.0 then 0.0 else s[k] + shift
  {
    seq(|s|, k requires 0 <= k < |s| => if s[k] <= 0.0 then 0.0 else s[k] + shift)
  }

  /** The value `skewTimeline(timeline, factor)` returns. */
  function Skewed(timeline: Option<TimelineData>, factor: real): (r: Option<TimelineData>)
    ensures r.Some? <==> timeline.Some?
    ensures timeline.Some? ==> r.value.color == timeline.value.color
    ensures timeline.Some? ==> (r.value.data.Some? <==> timeline.value.data.Some?)
    ensures timeline.Some? && timeline.value.data.Some? ==>
      var t := timeline.value.data.value;
      var u := r.value.data.value;
      && u.startTime == t.startTime
      && u.durationDelta == t.durationDelta
      && |u.samples| == |t.samples|
      && (forall k :: 0 <= k < |t.samples| && t.samples[k] <= 0.0 ==> u.samples[k] == 0.0)
      && (forall k :: 0 <= k < |t.samples| && t.samples[k] > 0.0 ==>
            u.samples[k] == t.samples[k] + SkewShift(t.samples, factor))
  {
    if timeline.None? then None
    else if timeline.value.data.None? then timeline
    else
      var t := timeline.value.data.value;
      Some(timeline.value.(data := Some(t.(samples := SkewSamples(t.samples, SkewShift(t.samples, factor))))))
  }

  /**
   * The scan at the head of `skewTimeline`: starting from the first sample,
   * keeps any sample below the running minimum or above the running maximum.
   */
  method ScanMinMax(samples: seq<real>) returns (min: real, max: real)
    ensures |samples| > 0 ==> min == SeqMin(samples) && max == SeqMax(samples)
  {
    // For an empty array `skewTimeline` starts `min`/`max` from `undefined`; no caller uses the result then.
    min := if |samples| > 0 then samples[0] else 0.0;
    max := min;
    var i := 0;
    while i < |samples|
      invariant 0 <= i <= |samples|
      invariant i == 0 && |samples| > 0 ==> min == samples[0] && max == samples[0]
      invariant i > 0 ==> min == SeqMin(samples[..i]) && max == SeqMax(samples[..i])
    {
      var b := samples[i];
      if b < min {
        min := b;
      }
      if b > max {
        max := b;
      }
      assert samples[..i + 1][..i] == samples[..i];
      i := i + 1;
    }
    assert |samples| > 0 ==> samples[..|samples|] == samples;
  }

  /**
   * `skewTimeline`: on a copy of the timeline, finds the minimum and maximum
   * sample and replaces the copy's samples by their skewed values.
   */
  method SkewTimeline(timeline: Option<TimelineData>, factor: real) returns (r: Option<TimelineData>)
    ensures r == Skewed(timeline, factor)
  {
    if timeline.None? {
      return None;
    }
    var copy := timeline.value;
    if copy.data.Some? {
      var samples := copy.data.value.samples;
      var min, max := ScanMinMax(samples);
      var skew := (max - min) / 100.0;
      var shift := skew * factor;
      if |samples| == 0 {
        // Nothing is shifted; the `NaN` skew `skewTimeline` computes here is never used.
        shift := SkewShift(samples, factor);
      } else {
        assert skew == Spread(samples);
        assert shift == SkewShift(samples, factor);
      }
      copy := copy.(data := Some(copy.data.value.(samples := SkewSamples(samples, shift))));
    }
    return Some(copy);
  }

  /** Samples that mean "absent" (zero or negative) never become visible. */
  lemma SkewKeepsAbsentAtZero(timeline: TimelineData, factor: real, k: nat)
    requires timeline.data.Some? && k < |timeline.data.value.samples|
    requires timeline.data.value.samples[k] <= 0.0
    ensures Skewed(Some(timeline), factor).value.data.value.samples[k] == 0.0
  {
  }

  /** With a non-negative factor no sample is lowered, and no result sample is negative. */
  lemma SkewNeverLowers(timeline: TimelineData, factor: real, k: nat)
    requires factor >= 0.0
    requires timeline.data.Some? && k < |timeline.data.value.samples|
    ensures var a := timeline.data.value.samples[k];
            var b := Skewed(Some(timeline), factor).value.data.value.samples[k];
            b >= 0.0 && (a > 0.0 ==> b >= a)
  {
  }

  /**
   * A positive sample strictly rises exactly when the factor is positive and
   * the series is not flat.
   */
  lemma SkewStrictlyRaises(timeline: TimelineData, factor: real, k: nat)
    requires factor >= 0.0
    requires timeline.data.Some? && k < |timeline.data.value.samples|
    requires timeline.data.value.samples[k] > 0.0
    ensures var s := timeline.data.value.samples;
            Skewed(Some(timeline), factor).value.data.value.samples[k] > s[k] <==>
              factor > 0.0 && SeqMax(s) > SeqMin(s)
  {
  }

  /** Skewing an empty sample array gives an empty sample array. */
  lemma SkewEmpty(timeline: TimelineData, factor: real)
    requires timeline.data.Some? && timeline.data.value.samples == []
    ensures Skewed(Some(timeline), factor).value.data.value.samples == []
  {
  }
}
