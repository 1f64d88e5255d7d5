/**
 * Timelines as the chart wrapper receives them and the point sequences it
 * derives from them: decoding, interval centering, the "same series" heuristic
 * and the single-datapoint test.
 */
module Timelines {
  import opened Wrappers

  /** A compact series: sample i stands for time `startTime + i * durationDelta` (seconds). */
  datatype Timeline = Timeline(startTime: real, durationDelta: real, samples: seq<real>)

  /** One series handed to the chart: its timeline when loaded, and a display colour. */
  datatype TimelineData = TimelineData(data: Option<Timeline>, color: Option<string>)

  /** A plotted point `[timestamp in milliseconds, value]`. */
  datatype Point = Point(ms: real, value: real)

  /**
   * The points produced from `samples` when the running clock starts at `time`
   * and advances by `delta` after each sample.
   */
  function DecodeFrom(time: real, delta: real, samples: seq<real>): (r: seq<Point>)
    ensures |r| == |samples|
    ensures forall k :: 0 <= k < |r| ==> r[k].value == samples[k]
    decreases |samples|
  {
    if samples == [] then []
    else [Point(time * 1000.0, samples[0])] + DecodeFrom(time + delta, delta, samples[1..])
  }

  /** The points `decodeTimelineData` yields for a present timeline. */
  function Decoded(t: Timeline): seq<Point>
  {
    DecodeFrom(t.startTime, t.durationDelta, t.samples)
  }

  /** In exact arithmetic the running clock never drifts: the k-th point sits at `(time + k * delta) * 1000`. */
  lemma {:induction false} DecodeFromAt(time: real, delta: real, samples: seq<real>, k: nat)
    requires k < |samples|
    decreases k
    ensures DecodeFrom(time, delta, samples)[k] == Point((time + k as real * delta) * 1000.0, samples[k])
  {
    if k > 0 {
      DecodeFromAt(time + delta, delta, samples[1..], k - 1);
      assert (time + delta) + (k - 1) as real * delta == time + k as real * delta;
    }
  }

  /** Point k of a decoded timeline, in closed form. */
  lemma DecodedAt(t: Timeline, k: nat)
    requires k < |t.samples|
    ensures |Decoded(t)| == |t.samples|
    ensures Decoded(t)[k] == Point((t.startTime + k as real * t.durationDelta) * 1000.0, t.samples[k])
  {
    DecodeFromAt(t.startTime, t.durationDelta, t.samples, k);
  }

  /** With a positive interval the decoded points are strictly ordered by time. */
  lemma DecodedIncreasing(t: Timeline, j: nat, k: nat)
    requires t.durationDelta > 0.0
    requires j < k < |t.samples|
    ensures Decoded(t)[j].ms < Decoded(t)[k].ms
  {
    DecodedAt(t, j);
    DecodedAt(t, k);
    assert k as real * t.durationDelta - j as real * t.durationDelta == (k - j) as real * t.durationDelta;
  }

  /**
   * `decodeTimelineData`: expands a timeline into `[ms, value]` points, carrying
   * the time forward in an accumulator as `decodeTimelineData` does.
   */
  method DecodeTimelineData(timeline: Option<Timeline>) returns (points: seq<Point>)
    ensures timeline.None? ==> points == []
    ensures timeline.Some? ==> |points| == |timeline.value.samples|
    ensures timeline.Some? ==> forall k :: 0 <= k < |points| ==>
      points[k] == Point((timeline.value.startTime + k as real * timeline.value.durationDelta) * 1000.0,
                         timeline.value.samples[k])
    ensures timeline.Some? ==> points == Decoded(timeline.value)
  {
    if timeline.None? {
      return [];
    }
    var t := timeline.value;
    var time := t.startTime;
    points := [];
    var i := 0;
    while i < |t.samples|
      invariant 0 <= i <= |t.samples|
      invariant time == t.startTime + i as real * t.durationDelta
      invariant |points| == i
      invariant forall k :: 0 <= k < i ==>
        points[k] == Point((t.startTime + k as real * t.durationDelta) * 1000.0, t.samples[k])
    {
      points := points + [Point(time * 1000.0, t.samples[i])];
      time := time + t.durationDelta;
      i := i + 1;
    }
    forall k | 0 <= k < |points|
      ensures points[k] == Decoded(t)[k]
    {
      DecodedAt(t, k);
    }
  }

  /** The result of `centerTimelineData`: points, or the `[[]]` placeholder for absent data. */
  datatype Centered = Points(points: seq<Point>) | NoData

  /**
   * `centerTimelineData`: every timestamp moves 5000 ms later (half of a 10 s
   * chunk) and every value except the placeholder 0 is decremented by one.
   */
  function CenterTimelineData(td: TimelineData): (r: Centered)
    ensures td.data.None? <==> r.NoData?
    ensures td.data.Some? ==> |r.points| == |td.data.value.samples|
    ensures td.data.Some? ==> forall k :: 0 <= k < |r.points| ==>
      var t := td.data.value;
      r.points[k].ms == (t.startTime + k as real * t.durationDelta) * 1000.0 + 5000.0 &&
      r.points[k].value == (if t.samples[k] == 0.0 then 0.0 else t.samples[k] - 1.0)
  {
    if td.data.None? then NoData
    else
      var d := Decoded(td.data.value);
      var r := Points(seq(|d|, k requires 0 <= k < |d| =>
        Point(d[k].ms + 5000.0, if d[k].value == 0.0 then 0.0 else d[k].value - 1.0)));
      assert forall k :: 0 <= k < |d| ==>
        d[k].ms == (td.data.value.startTime + k as real * td.data.value.durationDelta) * 1000.0 by {
        forall k | 0 <= k < |d| { DecodedAt(td.data.value, k); }
      }
      r
  }

  /**
   * `areTimelinesTheSame`: a cheap similarity test. Every sample of the
   * "smallest" timeline must occur among the values of the "biggest" one; when
   * the lengths are equal both of these are B, so the test always succeeds.
   */
  function AreTimelinesTheSame(timelineA: TimelineData, timelineB: Option<TimelineData>): (r: bool)
    ensures timelineB.None? ==> !r
    ensures timelineA.data.None? || (timelineB.Some? && timelineB.value.data.None?) ==> !r
    ensures r ==> timelineB.Some? && timelineB.value.data.Some? && timelineA.data.Some?
    ensures timelineB.Some? && timelineA.data.Some? && timelineB.value.data.Some? ==>
      var a := timelineA.data.value.samples;
      var b := timelineB.value.data.value.samples;
      (|a| == |b| ==> r) &&
      (|a| < |b| ==> (r <==> forall x :: x in a ==> x in b)) &&
      (|a| > |b| ==> (r <==> forall x :: x in b ==> x in a))
  {
    if timelineB.None? then false
    else
      var dataA := timelineA.data;
      var dataB := timelineB.value.data;
      if dataA.None? || dataB.None? then false
      else
        var biggest := if |dataA.value.samples| > |dataB.value.samples| then dataA.value else dataB.value;
        var smallest := if |dataA.value.samples| < |dataB.value.samples| then dataA.value else dataB.value;
        var seen := set x | x in biggest.samples;
        forall x :: x in smallest.samples ==> x in seen
  }

  /** With both data present, the test does not depend on which series is A. */
  lemma AreTimelinesTheSameSymmetric(a: TimelineData, b: TimelineData)
    requires a.data.Some? && b.data.Some?
    ensures AreTimelinesTheSame(a, Some(b)) == AreTimelinesTheSame(b, Some(a))
  {
  }

  /** Any series is "the same" as itself. */
  lemma AreTimelinesTheSameReflexive(a: TimelineData)
    requires a.data.Some?
    ensures AreTimelinesTheSame(a, Some(a))
  {
  }

  /**
   * The equal-length case never compares A with B: two two-sample series with
   * no value in common still count as the same.
   */
  lemma EqualLengthAlwaysSame()
    ensures var a := TimelineData(Some(Timeline(0.0, 10.0, [1.0, 2.0])), None);
            var b := TimelineData(Some(Timeline(0.0, 10.0, [5.0, 6.0])), None);
            AreTimelinesTheSame(a, Some(b))
  {
  }

  /** Two worked cases: `[2, 1]` is contained in `[1, 2, 3]`, `[5, 6]` is not. */
  lemma SubsetExamples()
    ensures var a := TimelineData(Some(Timeline(0.0, 10.0, [1.0, 2.0, 3.0])), None);
            AreTimelinesTheSame(a, Some(TimelineData(Some(Timeline(0.0, 10.0, [2.0, 1.0])), None))) &&
            !AreTimelinesTheSame(a, Some(TimelineData(Some(Timeline(0.0, 10.0, [5.0, 6.0])), None)))
  {
  }

  /**
   * `isSingleDatapoint`: A has data with at most one sample, and B is absent,
   * has no data, or also has at most one sample.
   */
  function IsSingleDatapoint(timelineA: TimelineData, timelineB: Option<TimelineData>): (r: bool)
    ensures r <==> timelineA.data.Some? && |timelineA.data.value.samples| <= 1 &&
                   (timelineB.None? || timelineB.value.data.None? || |timelineB.value.data.value.samples| <= 1)
  {
    var aIsSingle := timelineA.data.Some? && |timelineA.data.value.samples| <= 1;
    if !aIsSingle then false
    else if timelineB.Some? && timelineB.value.data.Some? then |timelineB.value.data.value.samples| <= 1
    else true
  }

  /** A single-datapoint A centres to at most one point. */
  lemma SingleDatapointCentersToAtMostOnePoint(a: TimelineData, b: Option<TimelineData>)
    requires IsSingleDatapoint(a, b)
    ensures CenterTimelineData(a).Points? && |CenterTimelineData(a).points| <= 1
  {
  }
}
