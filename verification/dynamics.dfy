/** The loudness and energy builders of src/analyzer.cpp
    (`build_loudness_events`, `build_energy_events`). */
module Dynamics {
  import opened Wrappers
  import opened Events
  import opened Envelopes
  import opened Features
  import opened Throttling

  /** The largest value (`std::max_element`). */
  function MaxOf(v: Frames): (m: real)
    requires |v| > 0
    ensures m in v
    ensures forall x :: x in v ==> x <= m
  {
    if |v| == 1 then v[0]
    else
      var rest := MaxOf(v[1..]);
      assert forall x :: x in v ==> x == v[0] || x in v[1..];
      if v[0] >= rest then v[0] else rest
  }

  /** Whether frame `i` is a loudness peak: an interior strict local maximum
      reaching the peak threshold. */
  predicate IsPeak(v: Frames, i: nat, peakThreshold: real) {
    0 < i < |v| - 1 && v[i] > v[i - 1] && v[i] > v[i + 1] && v[i] >= peakThreshold
  }

  /** Whether frame `i` jumps from the previous one by more than the positive
      magnitude threshold. */
  predicate IsJump(v: Frames, i: nat, magThreshold: real) {
    0 < i < |v| && magThreshold > 0.0 && Abs(v[i] - v[i - 1]) > magThreshold
  }

  /** The events of frame `i` at time `t`, in the order the loop body emits
      them: the throttled loudness sample, a peak, a dynamic change. */
  function FrameEvents(v: Frames, filter: EventFilter, maxV: real, i: nat, t: real, emitLoudness: bool): Timeline
    requires i < |v|
  {
    (if emitLoudness then [TimelineEvent(t, ScalarMsg(Loudness, v[i]))] else [])
    + PeakEvent(v, filter, maxV, i, t)
    + DynamicEvent(v, filter, maxV, i, t)
  }

  function PeakEvent(v: Frames, filter: EventFilter, maxV: real, i: nat, t: real): Timeline
    requires i < |v|
  {
    if LoudnessPeak in filter && IsPeak(v, i, maxV * 0.9) then [TimelineEvent(t, ScalarMsg(LoudnessPeak, v[i]))] else []
  }

  function DynamicEvent(v: Frames, filter: EventFilter, maxV: real, i: nat, t: real): Timeline
    requires i < |v|
  {
    if DynamicChange in filter && IsJump(v, i, maxV * 0.3) then [TimelineEvent(t, DynamicChangeMsg(Abs(v[i] - v[i - 1])))] else []
  }

  /** The loop from frame `i` on, `last` being the time of the last loudness sample. */
  function LoudnessFrom(v: Frames, filter: EventFilter, c: Timing, duration: real, maxV: real,
                        i: nat, last: real): Timeline
    requires c.Valid()
    decreases |v| - i
  {
    if i >= |v| || c.Time(i) > duration then []
    else
      var emit := Loudness in filter && c.Time(i) - last >= c.interval;
      FrameEvents(v, filter, maxV, i, c.Time(i), emit)
      + LoudnessFrom(v, filter, c, duration, maxV, i + 1, if emit then c.Time(i) else last)
  }

  function Loudnesses(pool: Pool, filter: EventFilter, c: Timing, duration: real): Timeline
    requires c.Valid()
  {
    if !(Loudness in filter || LoudnessPeak in filter || DynamicChange in filter) then []
    else if pool.loudness.None? || pool.loudness.value == [] then []
    else LoudnessFrom(pool.loudness.value, filter, c, duration, MaxOf(pool.loudness.value), 0, -c.interval)
  }

  method BuildLoudness(pool: Pool, filter: EventFilter, c: Timing, duration: real) returns (added: Timeline)
    requires c.Valid()
    ensures added == Loudnesses(pool, filter, c, duration)
  {
    added := [];
    var wantLoudness := Loudness in filter;
    var wantPeak := LoudnessPeak in filter;
    var wantDynamic := DynamicChange in filter;
    if !wantLoudness && !wantPeak && !wantDynamic {
      return;
    }
    if pool.loudness.None? {
      return;
    }
    var values := pool.loudness.value;
    if |values| == 0 {
      return;
    }
    var last := -c.interval;
    var maxLoudness := MaxOf(values);
    var peakThreshold := maxLoudness * 0.9;
    var i := 0;
    while i < |values|
      invariant 0 <= i <= |values|
      invariant added + LoudnessFrom(values, filter, c, duration, maxLoudness, i, last)
        == LoudnessFrom(values, filter, c, duration, maxLoudness, 0, -c.interval)
    {
      var t := c.Time(i);
      if t > duration {
        break;
      }
      var emit := wantLoudness && t - last >= c.interval;
      ghost var rest := LoudnessFrom(values, filter, c, duration, maxLoudness, i + 1, if emit then t else last);
      var frame := LoudnessFrame(values, filter, maxLoudness, peakThreshold, i, t, emit);
      if emit {
        last := t;
      }
      AppendAssoc(added, frame, rest);
      added := added + frame;
      i := i + 1;
    }
  }

  /** The body of the loop for frame `i` at time `t`: the loudness sample
      when it is due, then the peak test, then the dynamic change test. */
  method LoudnessFrame(values: Frames, filter: EventFilter, maxLoudness: real, peakThreshold: real,
                       i: nat, t: real, emit: bool) returns (frame: Timeline)
    requires i < |values| && peakThreshold == maxLoudness * 0.9
    ensures frame == FrameEvents(values, filter, maxLoudness, i, t, emit)
  {
    frame := [];
    if emit {
      frame := frame + [TimelineEvent(t, ScalarMsg(Loudness, values[i]))];
    }
    if LoudnessPeak in filter && i > 0 && i < |values| - 1 {
      if values[i] > values[i - 1] && values[i] > values[i + 1] && values[i] >= peakThreshold {
        frame := frame + [TimelineEvent(t, ScalarMsg(LoudnessPeak, values[i]))];
      }
    }
    if DynamicChange in filter && i > 0 {
      var diff := Abs(values[i] - values[i - 1]);
      var magThreshold := maxLoudness * 0.3;
      if magThreshold > 0.0 && diff > magThreshold {
        frame := frame + [TimelineEvent(t, DynamicChangeMsg(diff))];
      }
    }
  }

  // ------------------------------------------------------------------ properties

  /** A loudness peak event stands for an interior frame that is a strict
      local maximum and reaches 90% of the loudest frame. */
  ghost predicate PeakAt(v: Frames, c: Timing, maxV: real, e: TimelineEvent)
    requires c.Valid()
  {
    exists j :: 0 < j < |v| - 1 && e == TimelineEvent(c.Time(j), ScalarMsg(LoudnessPeak, v[j]))
      && v[j] > v[j - 1] && v[j] > v[j + 1] && v[j] >= 0.9 * maxV
  }

  /** A dynamic change event stands for a frame after the first whose jump
      from the previous frame exceeds 30% of the loudest frame, that
      threshold being positive; it carries the size of the jump. */
  ghost predicate DynamicAt(v: Frames, c: Timing, maxV: real, e: TimelineEvent)
    requires c.Valid()
  {
    exists j :: 0 < j < |v| && e == TimelineEvent(c.Time(j), DynamicChangeMsg(Abs(v[j] - v[j - 1])))
      && 0.3 * maxV > 0.0 && Abs(v[j] - v[j - 1]) > 0.3 * maxV
  }

  /** The events of one frame are of enabled types, all at the frame's time. */
  lemma FrameGated(v: Frames, filter: EventFilter, maxV: real, i: nat, t: real, emit: bool)
    requires i < |v| && (emit ==> Loudness in filter)
    ensures Gated(FrameEvents(v, filter, maxV, i, t, emit), filter)
    ensures forall e :: e in FrameEvents(v, filter, maxV, i, t, emit) ==> e.timestamp == t
  {
    var sample: Timeline := if emit then [TimelineEvent(t, ScalarMsg(Loudness, v[i]))] else [];
    var peak := PeakEvent(v, filter, maxV, i, t);
    var jump := DynamicEvent(v, filter, maxV, i, t);
    assert FrameEvents(v, filter, maxV, i, t, emit) == sample + peak + jump;
    forall e | e in sample + peak + jump
      ensures Kind(e.payload) in filter && Emittable(Kind(e.payload)) && e.timestamp == t
    {
      if e in sample {
        assert e == TimelineEvent(t, ScalarMsg(Loudness, v[i]));
      } else if e in peak {
        assert e == TimelineEvent(t, ScalarMsg(LoudnessPeak, v[i]));
      } else {
        assert e == TimelineEvent(t, DynamicChangeMsg(Abs(v[i] - v[i - 1])));
      }
    }
  }

  /** The peak and the dynamic change of one frame come only from their own
      tests. */
  lemma FrameKinds(v: Frames, filter: EventFilter, maxV: real, i: nat, t: real, emit: bool)
    requires i < |v|
    ensures forall e :: e in FrameEvents(v, filter, maxV, i, t, emit) && Kind(e.payload) == LoudnessPeak ==>
                          e in PeakEvent(v, filter, maxV, i, t)
    ensures forall e :: e in FrameEvents(v, filter, maxV, i, t, emit) && Kind(e.payload) == DynamicChange ==>
                          e in DynamicEvent(v, filter, maxV, i, t)
  {
    var sample: Timeline := if emit then [TimelineEvent(t, ScalarMsg(Loudness, v[i]))] else [];
    var peak := PeakEvent(v, filter, maxV, i, t);
    var jump := DynamicEvent(v, filter, maxV, i, t);
    assert FrameEvents(v, filter, maxV, i, t, emit) == sample + peak + jump;
    forall e | e in sample + peak + jump
      ensures Kind(e.payload) == LoudnessPeak ==> e in peak
      ensures Kind(e.payload) == DynamicChange ==> e in jump
    {
      if e in sample {
        assert e == TimelineEvent(t, ScalarMsg(Loudness, v[i]));
      } else if e in peak {
        assert e == TimelineEvent(t, ScalarMsg(LoudnessPeak, v[i]));
      } else {
        assert e == TimelineEvent(t, DynamicChangeMsg(Abs(v[i] - v[i - 1])));
      }
    }
  }

  /** A frame's peak and dynamic change carry their own types. */
  lemma FrameOthers(v: Frames, filter: EventFilter, maxV: real, i: nat, t: real)
    requires i < |v|
    ensures forall x :: x in PeakEvent(v, filter, maxV, i, t) ==> Kind(x.payload) == LoudnessPeak
    ensures forall x :: x in DynamicEvent(v, filter, maxV, i, t) ==> Kind(x.payload) == DynamicChange
  {
    forall x | x in PeakEvent(v, filter, maxV, i, t) ensures Kind(x.payload) == LoudnessPeak {
      assert x == TimelineEvent(t, ScalarMsg(LoudnessPeak, v[i]));
    }
    forall x | x in DynamicEvent(v, filter, maxV, i, t) ensures Kind(x.payload) == DynamicChange {
      assert x == TimelineEvent(t, DynamicChangeMsg(Abs(v[i] - v[i - 1])));
    }
  }

  /** The time of the last loudness sample after frame `i`. */
  function NextLast(filter: EventFilter, c: Timing, i: nat, last: real): real
    requires c.Valid()
  {
    if Loudness in filter && c.Time(i) - last >= c.interval then c.Time(i) else last
  }

  /** Every event of the loop is enabled by the filter. */
  lemma {:induction false} LoudnessFromGated(v: Frames, filter: EventFilter, c: Timing, duration: real,
                                             maxV: real, i: nat, last: real)
    requires c.Valid()
    ensures Gated(LoudnessFrom(v, filter, c, duration, maxV, i, last), filter)
    decreases |v| - i
  {
    if i < |v| && c.Time(i) <= duration {
      LoudnessFromGated(v, filter, c, duration, maxV, i + 1, NextLast(filter, c, i, last));
      GatedStep(v, filter, c, duration, maxV, i, last);
    }
  }

  lemma GatedStep(v: Frames, filter: EventFilter, c: Timing, duration: real, maxV: real, i: nat, last: real)
    requires c.Valid() && i < |v| && c.Time(i) <= duration
    requires Gated(LoudnessFrom(v, filter, c, duration, maxV, i + 1, NextLast(filter, c, i, last)), filter)
    ensures Gated(LoudnessFrom(v, filter, c, duration, maxV, i, last), filter)
  {
    var emit := Loudness in filter && c.Time(i) - last >= c.interval;
    FrameGated(v, filter, maxV, i, c.Time(i), emit);
    GatedAppend(FrameEvents(v, filter, maxV, i, c.Time(i), emit),
                LoudnessFrom(v, filter, c, duration, maxV, i + 1, NextLast(filter, c, i, last)), filter);
  }

  /** Every event of the loop is within the track. */
  lemma {:induction false} LoudnessFromWithin(v: Frames, filter: EventFilter, c: Timing, duration: real,
                                              maxV: real, i: nat, last: real)
    requires c.Valid()
    ensures NotAfter(LoudnessFrom(v, filter, c, duration, maxV, i, last), duration)
    decreases |v| - i
  {
    if i < |v| && c.Time(i) <= duration {
      LoudnessFromWithin(v, filter, c, duration, maxV, i + 1, NextLast(filter, c, i, last));
      WithinStep(v, filter, c, duration, maxV, i, last);
    }
  }

  lemma WithinStep(v: Frames, filter: EventFilter, c: Timing, duration: real, maxV: real, i: nat, last: real)
    requires c.Valid() && i < |v| && c.Time(i) <= duration
    requires NotAfter(LoudnessFrom(v, filter, c, duration, maxV, i + 1, NextLast(filter, c, i, last)), duration)
    ensures NotAfter(LoudnessFrom(v, filter, c, duration, maxV, i, last), duration)
  {
    var emit := Loudness in filter && c.Time(i) - last >= c.interval;
    FrameGated(v, filter, maxV, i, c.Time(i), emit);
    NotAfterAppend(FrameEvents(v, filter, maxV, i, c.Time(i), emit),
                   LoudnessFrom(v, filter, c, duration, maxV, i + 1, NextLast(filter, c, i, last)), duration);
  }

  /** Every peak event of the loop stands for a peak frame. */
  lemma {:induction false} LoudnessFromPeaks(v: Frames, filter: EventFilter, c: Timing, duration: real,
                                             maxV: real, i: nat, last: real)
    requires c.Valid()
    ensures forall e :: e in LoudnessFrom(v, filter, c, duration, maxV, i, last) && Kind(e.payload) == LoudnessPeak ==>
                          PeakAt(v, c, maxV, e)
    decreases |v| - i
  {
    if i < |v| && c.Time(i) <= duration {
      LoudnessFromPeaks(v, filter, c, duration, maxV, i + 1, NextLast(filter, c, i, last));
      PeaksStep(v, filter, c, duration, maxV, i, last);
    }
  }

  lemma PeaksStep(v: Frames, filter: EventFilter, c: Timing, duration: real, maxV: real, i: nat, last: real)
    requires c.Valid() && i < |v| && c.Time(i) <= duration
    requires forall e :: (e in LoudnessFrom(v, filter, c, duration, maxV, i + 1, NextLast(filter, c, i, last))
                          && Kind(e.payload) == LoudnessPeak) ==> PeakAt(v, c, maxV, e)
    ensures forall e :: e in LoudnessFrom(v, filter, c, duration, maxV, i, last) && Kind(e.payload) == LoudnessPeak ==>
                          PeakAt(v, c, maxV, e)
  {
    var t := c.Time(i);
    var emit := Loudness in filter && t - last >= c.interval;
    FrameKinds(v, filter, maxV, i, t, emit);
    if PeakEvent(v, filter, maxV, i, t) != [] {
      assert PeakAt(v, c, maxV, TimelineEvent(t, ScalarMsg(LoudnessPeak, v[i])));
    }
  }

  /** Every dynamic change event of the loop stands for a jump. */
  lemma {:induction false} LoudnessFromJumps(v: Frames, filter: EventFilter, c: Timing, duration: real,
                                             maxV: real, i: nat, last: real)
    requires c.Valid()
    ensures forall e :: e in LoudnessFrom(v, filter, c, duration, maxV, i, last) && Kind(e.payload) == DynamicChange ==>
                          DynamicAt(v, c, maxV, e)
    decreases |v| - i
  {
    if i < |v| && c.Time(i) <= duration {
      LoudnessFromJumps(v, filter, c, duration, maxV, i + 1, NextLast(filter, c, i, last));
      JumpsStep(v, filter, c, duration, maxV, i, last);
    }
  }

  lemma JumpsStep(v: Frames, filter: EventFilter, c: Timing, duration: real, maxV: real, i: nat, last: real)
    requires c.Valid() && i < |v| && c.Time(i) <= duration
    requires forall e :: (e in LoudnessFrom(v, filter, c, duration, maxV, i + 1, NextLast(filter, c, i, last))
                          && Kind(e.payload) == DynamicChange) ==> DynamicAt(v, c, maxV, e)
    ensures forall e :: e in LoudnessFrom(v, filter, c, duration, maxV, i, last) && Kind(e.payload) == DynamicChange ==>
                          DynamicAt(v, c, maxV, e)
  {
    var t := c.Time(i);
    var emit := Loudness in filter && t - last >= c.interval;
    FrameKinds(v, filter, maxV, i, t, emit);
    if DynamicEvent(v, filter, maxV, i, t) != [] {
      assert DynamicAt(v, c, maxV, TimelineEvent(t, DynamicChangeMsg(Abs(v[i] - v[i - 1]))));
    }
  }

  /** Loudness samples are at least the interval apart, the first at least
      the interval after `last`. */
  lemma {:induction false} LoudnessFromSpaced(v: Frames, filter: EventFilter, c: Timing, duration: real,
                                              maxV: real, i: nat, last: real)
    requires c.Valid()
    ensures Spaced(LoudnessFrom(v, filter, c, duration, maxV, i, last), Loudness, last, c.interval)
    decreases |v| - i
  {
    if i < |v| && c.Time(i) <= duration {
      LoudnessFromSpaced(v, filter, c, duration, maxV, i + 1, NextLast(filter, c, i, last));
      SpacedStepFrame(v, filter, c, duration, maxV, i, last);
    }
  }

  lemma SpacedStepFrame(v: Frames, filter: EventFilter, c: Timing, duration: real, maxV: real, i: nat, last: real)
    requires c.Valid() && i < |v| && c.Time(i) <= duration
    requires Spaced(LoudnessFrom(v, filter, c, duration, maxV, i + 1, NextLast(filter, c, i, last)),
                    Loudness, NextLast(filter, c, i, last), c.interval)
    ensures Spaced(LoudnessFrom(v, filter, c, duration, maxV, i, last), Loudness, last, c.interval)
  {
    var t := c.Time(i);
    var emit := Loudness in filter && t - last >= c.interval;
    var head := if emit then [TimelineEvent(t, ScalarMsg(Loudness, v[i]))] else [];
    FrameOthers(v, filter, maxV, i, t);
    SpacedFrame(head, PeakEvent(v, filter, maxV, i, t), DynamicEvent(v, filter, maxV, i, t),
                LoudnessFrom(v, filter, c, duration, maxV, i + 1, NextLast(filter, c, i, last)),
                Loudness, last, NextLast(filter, c, i, last), c.interval);
  }

  /** A frame made of at most one sample of `k` followed by events of other
      types keeps the stream spaced. */
  lemma SpacedFrame(head: Timeline, p: Timeline, d: Timeline, rest: Timeline,
                    k: EventType, last: real, next: real, interval: real)
    requires head == [] ==> next == last
    requires head != [] ==> |head| == 1 && Kind(head[0].payload) == k
                            && head[0].timestamp - last >= interval && next == head[0].timestamp
    requires forall x :: x in p ==> Kind(x.payload) != k
    requires forall x :: x in d ==> Kind(x.payload) != k
    requires Spaced(rest, k, next, interval)
    ensures Spaced(head + p + d + rest, k, last, interval)
  {
    assert forall j :: 0 <= j < |p + d| ==> Kind((p + d)[j].payload) != k by {
      forall j | 0 <= j < |p + d| ensures (p + d)[j] in p || (p + d)[j] in d { }
    }
    SpacedSkip(p + d, rest, k, next, interval);
    if head != [] {
      SpacedHead(head[0], p + d + rest, k, last, interval);
      assert head + p + d + rest == [head[0]] + (p + d + rest);
    } else {
      assert head + p + d + rest == p + d + rest;
    }
  }

  /** Events of other types in front of a spaced stream keep it spaced. */
  lemma SpacedSkip(others: Timeline, rest: Timeline, k: EventType, next: real, interval: real)
    requires forall j :: 0 <= j < |others| ==> Kind(others[j].payload) != k
    requires Spaced(rest, k, next, interval)
    ensures Spaced(others + rest, k, next, interval)
  {
    SpacedOther(others, k, next, interval);
    SpacedConcat(others, rest, k, next, interval);
  }

  /** A sample of `k` due after `last`, in front of a stream spaced from the
      sample's time, keeps it spaced. */
  lemma SpacedHead(e: TimelineEvent, tail: Timeline, k: EventType, last: real, interval: real)
    requires Kind(e.payload) == k && e.timestamp - last >= interval
    requires Spaced(tail, k, e.timestamp, interval)
    ensures Spaced([e] + tail, k, last, interval)
  {
    SpacedSingle(e, k, last, interval);
    SpacedConcat([e], tail, k, last, interval);
  }

  /** What the frame after a frame within the track reports, whatever the
      time of the last loudness sample, that frame reports too. */
  lemma LoudnessBack(v: Frames, filter: EventFilter, c: Timing, duration: real, maxV: real,
                     i: nat, next: nat, e: TimelineEvent)
    requires c.Valid() && i < |v| && next == i + 1 && c.Time(i) <= duration
    requires forall l :: e in LoudnessFrom(v, filter, c, duration, maxV, next, l)
    ensures forall l :: e in LoudnessFrom(v, filter, c, duration, maxV, i, l)
  {
    forall l | true
      ensures e in LoudnessFrom(v, filter, c, duration, maxV, i, l)
    {
      assert e in LoudnessFrom(v, filter, c, duration, maxV, next, NextLast(filter, c, i, l));
    }
  }

  /** A frame within the track reports its own peak and dynamic change. */
  lemma LoudnessHead(v: Frames, filter: EventFilter, c: Timing, duration: real, maxV: real,
                     i: nat, last: real, e: TimelineEvent)
    requires c.Valid() && i < |v| && c.Time(i) <= duration
    requires e in PeakEvent(v, filter, maxV, i, c.Time(i)) || e in DynamicEvent(v, filter, maxV, i, c.Time(i))
    ensures e in LoudnessFrom(v, filter, c, duration, maxV, i, last)
  {
  }

  /** An event that frame j reports, whatever the time of the last loudness
      sample, every earlier frame i reports too, when no frame from i to j
      lies past the end of the track. */
  lemma {:induction false} LoudnessFromReports(v: Frames, filter: EventFilter, c: Timing, duration: real,
                                               maxV: real, i: nat, j: nat, e: TimelineEvent)
    requires c.Valid() && i <= j < |v|
    requires forall k :: i <= k <= j ==> c.Time(k) <= duration
    requires forall l :: e in LoudnessFrom(v, filter, c, duration, maxV, j, l)
    ensures forall l :: e in LoudnessFrom(v, filter, c, duration, maxV, i, l)
    decreases j - i, 1
  {
    if i < j {
      LoudnessFromReportsStep(v, filter, c, duration, maxV, i, j, e);
    }
  }

  /** The step of LoudnessFromReports: frame i + 1 reports the event, and so does frame i. */
  lemma {:induction false} LoudnessFromReportsStep(v: Frames, filter: EventFilter, c: Timing, duration: real,
                                                   maxV: real, i: nat, j: nat, e: TimelineEvent)
    requires c.Valid() && i < j < |v|
    requires forall k :: i <= k <= j ==> c.Time(k) <= duration
    requires forall l :: e in LoudnessFrom(v, filter, c, duration, maxV, j, l)
    ensures forall l :: e in LoudnessFrom(v, filter, c, duration, maxV, i, l)
    decreases j - i, 0
  {
    LoudnessFromReports(v, filter, c, duration, maxV, i + 1, j, e);
    LoudnessBack(v, filter, c, duration, maxV, i, i + 1, e);
  }

  /** With LOUDNESS enabled, frame 0's loudness is the first event: the last
      emission starts one interval before zero, so frame 0 is always due. */
  lemma LoudnessFirst(pool: Pool, filter: EventFilter, c: Timing, duration: real)
    requires c.Valid() && Loudness in filter && pool.loudness.Some? && pool.loudness.value != []
    requires duration >= 0.0
    ensures var s := Loudnesses(pool, filter, c, duration);
      |s| > 0 && s[0] == TimelineEvent(0.0, ScalarMsg(Loudness, pool.loudness.value[0]))
  {
  }

  /** The loudness builder emits enabled types only, within the track, and
      only when the pool holds loudness values. */
  lemma LoudnessesGated(pool: Pool, filter: EventFilter, c: Timing, duration: real)
    requires c.Valid()
    ensures var s := Loudnesses(pool, filter, c, duration);
      Gated(s, filter) && NotAfter(s, duration) && (s != [] ==> pool.loudness.Some? && pool.loudness.value != [])
  {
    if pool.loudness.Some? && pool.loudness.value != [] {
      LoudnessFromGated(pool.loudness.value, filter, c, duration, MaxOf(pool.loudness.value), 0, -c.interval);
      LoudnessFromWithin(pool.loudness.value, filter, c, duration, MaxOf(pool.loudness.value), 0, -c.interval);
    }
  }

  /** Loudness samples are at least the continuous interval apart. */
  lemma LoudnessesSpaced(pool: Pool, filter: EventFilter, c: Timing, duration: real)
    requires c.Valid()
    ensures Spaced(Loudnesses(pool, filter, c, duration), Loudness, -c.interval, c.interval)
  {
    if (Loudness in filter || LoudnessPeak in filter || DynamicChange in filter)
       && pool.loudness.Some? && pool.loudness.value != [] {
      var v := pool.loudness.value;
      LoudnessFromSpaced(v, filter, c, duration, MaxOf(v), 0, -c.interval);
    }
  }

  /** Loudness peaks only at interior strict local maxima reaching 90% of the
      loudest frame. */
  lemma LoudnessesPeaks(pool: Pool, filter: EventFilter, c: Timing, duration: real)
    requires c.Valid()
    requires pool.loudness.Some? && pool.loudness.value != []
    ensures forall e :: e in Loudnesses(pool, filter, c, duration) && Kind(e.payload) == LoudnessPeak ==>
                          PeakAt(pool.loudness.value, c, MaxOf(pool.loudness.value), e)
  {
    var v := pool.loudness.value;
    LoudnessFromPeaks(v, filter, c, duration, MaxOf(v), 0, -c.interval);
  }

  /** Dynamic changes only where the jump from the previous frame exceeds 30%
      of the loudest frame. */
  lemma LoudnessesJumps(pool: Pool, filter: EventFilter, c: Timing, duration: real)
    requires c.Valid()
    requires pool.loudness.Some? && pool.loudness.value != []
    ensures forall e :: e in Loudnesses(pool, filter, c, duration) && Kind(e.payload) == DynamicChange ==>
                          DynamicAt(pool.loudness.value, c, MaxOf(pool.loudness.value), e)
  {
    var v := pool.loudness.value;
    LoudnessFromJumps(v, filter, c, duration, MaxOf(v), 0, -c.interval);
  }

  /** A peak or dynamic change of a frame within the track is among the
      loudness events. */
  lemma LoudnessesReport(pool: Pool, filter: EventFilter, c: Timing, duration: real, j: nat, e: TimelineEvent)
    requires c.Valid() && pool.loudness.Some? && j < |pool.loudness.value|
    requires LoudnessPeak in filter || DynamicChange in filter
    requires forall k :: 0 <= k <= j ==> c.Time(k) <= duration
    requires var v := pool.loudness.value;
      e in PeakEvent(v, filter, MaxOf(v), j, c.Time(j)) || e in DynamicEvent(v, filter, MaxOf(v), j, c.Time(j))
    ensures e in Loudnesses(pool, filter, c, duration)
  {
    var v := pool.loudness.value;
    assert c.Time(j) <= duration;
    forall l | true
      ensures e in LoudnessFrom(v, filter, c, duration, MaxOf(v), j, l)
    {
      LoudnessHead(v, filter, c, duration, MaxOf(v), j, l, e);
    }
    LoudnessFromReports(v, filter, c, duration, MaxOf(v), 0, j, e);
  }

  /** Every interior strict local maximum reaching 90% of the loudest frame
      is reported as a peak, when LOUDNESS_PEAK is enabled and no frame up to
      it lies past the end of the track. */
  lemma PeakReported(pool: Pool, filter: EventFilter, c: Timing, duration: real, j: nat)
    requires c.Valid() && pool.loudness.Some? && pool.loudness.value != [] && LoudnessPeak in filter
    requires IsPeak(pool.loudness.value, j, 0.9 * MaxOf(pool.loudness.value))
    requires forall k :: 0 <= k <= j ==> c.Time(k) <= duration
    ensures TimelineEvent(c.Time(j), ScalarMsg(LoudnessPeak, pool.loudness.value[j]))
      in Loudnesses(pool, filter, c, duration)
  {
    var v := pool.loudness.value;
    var e := TimelineEvent(c.Time(j), ScalarMsg(LoudnessPeak, v[j]));
    assert e in PeakEvent(v, filter, MaxOf(v), j, c.Time(j));
    LoudnessesReport(pool, filter, c, duration, j, e);
  }

  /** Every jump from the previous frame by more than 30% of the loudest
      frame, that threshold being positive, is reported as a dynamic change,
      when DYNAMIC_CHANGE is enabled and no frame up to it lies past the end
      of the track. */
  lemma JumpReported(pool: Pool, filter: EventFilter, c: Timing, duration: real, j: nat)
    requires c.Valid() && pool.loudness.Some? && pool.loudness.value != [] && DynamicChange in filter
    requires IsJump(pool.loudness.value, j, 0.3 * MaxOf(pool.loudness.value))
    requires forall k :: 0 <= k <= j ==> c.Time(k) <= duration
    ensures TimelineEvent(c.Time(j), DynamicChangeMsg(Abs(pool.loudness.value[j] - pool.loudness.value[j - 1])))
      in Loudnesses(pool, filter, c, duration)
  {
    var v := pool.loudness.value;
    var e := TimelineEvent(c.Time(j), DynamicChangeMsg(Abs(v[j] - v[j - 1])));
    assert e in DynamicEvent(v, filter, MaxOf(v), j, c.Time(j));
    LoudnessesReport(pool, filter, c, duration, j, e);
  }

  // ------------------------------------------------------------------ energy

  /** Energy samples: the throttled stream of `energy.values`, built when
      ENERGY is enabled. */
  function Energies(pool: Pool, filter: EventFilter, c: Timing, duration: real): Timeline
    requires c.Valid()
  {
    ScalarStream(filter, Energy, pool.energy, c, duration)
  }

  method BuildEnergy(pool: Pool, filter: EventFilter, c: Timing, duration: real) returns (added: Timeline)
    requires c.Valid()
    ensures added == Energies(pool, filter, c, duration)
  {
    added := BuildScalarStream(filter, Energy, pool.energy, c, duration);
  }
}
