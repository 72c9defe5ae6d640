/** Throttled sampling of a per-frame stream (src/analyzer.cpp
    `build_throttled_real_events`, `build_throttled_vector_events`, and the
    same loop in `build_energy_events`): walk the frames in order, stop at the
    first frame past the end of the track, and emit a frame when at least the
    continuous interval has passed since the last emission. */
module Throttling {
  import opened Wrappers
  import opened Events
  import opened Envelopes

  /** The events the loop emits from frame `i` on, `last` being the time of
      the last emission. `wrap` builds the payload of one frame. */
  function ThrottleFrom<T>(frames: seq<T>, wrap: T -> Payload, c: Timing, duration: real,
                           i: nat, last: real): Timeline
    requires c.Valid()
    decreases |frames| - i
  {
    if i >= |frames| || c.Time(i) > duration then []
    else if c.Time(i) - last >= c.interval then
      [TimelineEvent(c.Time(i), wrap(frames[i]))] + ThrottleFrom(frames, wrap, c, duration, i + 1, c.Time(i))
    else ThrottleFrom(frames, wrap, c, duration, i + 1, last)
  }

  /** The whole stream: nothing when the pool key is absent; otherwise the
      loop started with the last emission one interval before time zero. */
  function Throttled<T>(frames: Option<seq<T>>, wrap: T -> Payload, c: Timing, duration: real): Timeline
    requires c.Valid()
  {
    if frames.None? then [] else ThrottleFrom(frames.value, wrap, c, duration, 0, -c.interval)
  }

  method BuildThrottled<T>(frames: Option<seq<T>>, wrap: T -> Payload, c: Timing, duration: real)
    returns (added: Timeline)
    requires c.Valid()
    ensures added == Throttled(frames, wrap, c, duration)
  {
    added := [];
    if frames.None? {
      return;
    }
    var values := frames.value;
    if |values| == 0 {
      return;
    }
    var last := -c.interval;
    var i := 0;
    while i < |values|
      invariant 0 <= i <= |values|
      invariant added + ThrottleFrom(values, wrap, c, duration, i, last)
        == ThrottleFrom(values, wrap, c, duration, 0, -c.interval)
    {
      var t := c.Time(i);
      if t > duration {
        break;
      }
      if t - last >= c.interval {
        added := added + [TimelineEvent(t, wrap(values[i]))];
        last := t;
      }
      i := i + 1;
    }
  }

  /** Consecutive emissions are at least the interval apart, the first one at
      least the interval after `last`. */
  lemma {:induction false} ThrottleSpaced<T>(frames: seq<T>, wrap: T -> Payload, k: EventType,
                                              c: Timing, duration: real, i: nat, last: real)
    requires c.Valid()
    requires forall x :: Kind(wrap(x)) == k
    ensures Spaced(ThrottleFrom(frames, wrap, c, duration, i, last), k, last, c.interval)
    decreases |frames| - i
  {
    if i < |frames| && c.Time(i) <= duration {
      if c.Time(i) - last >= c.interval {
        var e := TimelineEvent(c.Time(i), wrap(frames[i]));
        SpacedSingle(e, k, last, c.interval);
        ThrottleSpaced(frames, wrap, k, c, duration, i + 1, c.Time(i));
        SpacedConcat([e], ThrottleFrom(frames, wrap, c, duration, i + 1, c.Time(i)), k, last, c.interval);
      } else {
        ThrottleSpaced(frames, wrap, k, c, duration, i + 1, last);
      }
    }
  }

  /** Every event of `s` is frame `j` of `frames` for some `j >= i`, stamped
      with its frame time, which is at most the duration. */
  ghost predicate Sampled<T>(s: Timeline, frames: seq<T>, wrap: T -> Payload, c: Timing, duration: real, i: nat)
    requires c.Valid()
  {
    forall e :: e in s ==>
      exists j :: i <= j < |frames| && c.Time(j) <= duration && e == TimelineEvent(c.Time(j), wrap(frames[j]))
  }

  /** Every emission is a frame from `i` on, within the track. */
  lemma {:induction false} ThrottleDrawn<T>(frames: seq<T>, wrap: T -> Payload,
                                             c: Timing, duration: real, i: nat, last: real)
    requires c.Valid()
    ensures Sampled(ThrottleFrom(frames, wrap, c, duration, i, last), frames, wrap, c, duration, i)
    decreases |frames| - i
  {
    if i < |frames| && c.Time(i) <= duration {
      var next := if c.Time(i) - last >= c.interval then c.Time(i) else last;
      ThrottleDrawn(frames, wrap, c, duration, i + 1, next);
      var rest := ThrottleFrom(frames, wrap, c, duration, i + 1, next);
      forall e | e in ThrottleFrom(frames, wrap, c, duration, i, last)
        ensures exists j :: i <= j < |frames| && c.Time(j) <= duration && e == TimelineEvent(c.Time(j), wrap(frames[j]))
      {
        if e !in rest {
          assert e == TimelineEvent(c.Time(i), wrap(frames[i]));
        }
      }
    }
  }

  /** Frame 0 is always emitted when there is one and the duration is not
      negative, because the last emission starts one interval before zero. */
  lemma ThrottleFirst<T>(frames: seq<T>, wrap: T -> Payload, c: Timing, duration: real)
    requires c.Valid() && |frames| > 0 && duration >= 0.0
    ensures var s := Throttled(Some(frames), wrap, c, duration);
      |s| > 0 && s[0] == TimelineEvent(0.0, wrap(frames[0]))
  {
  }

  /** The stream of a single event type is spaced by the interval from its first emission on. */
  lemma ThrottledSpaced<T>(frames: Option<seq<T>>, wrap: T -> Payload, k: EventType, c: Timing, duration: real)
    requires c.Valid()
    requires forall x :: Kind(wrap(x)) == k
    ensures Spaced(Throttled(frames, wrap, c, duration), k, -c.interval, c.interval)
  {
    if frames.Some? {
      ThrottleSpaced(frames.value, wrap, k, c, duration, 0, -c.interval);
    }
  }

  /** The stream stays within the track and holds its own event type only. */
  lemma ThrottledWithin<T>(frames: Option<seq<T>>, wrap: T -> Payload, k: EventType, c: Timing, duration: real)
    requires c.Valid()
    requires forall x :: Kind(wrap(x)) == k
    ensures var s := Throttled(frames, wrap, c, duration);
      NotAfter(s, duration) && KindsIn(s, {k})
  {
    if frames.Some? {
      var s := ThrottleFrom(frames.value, wrap, c, duration, 0, -c.interval);
      ThrottleDrawn(frames.value, wrap, c, duration, 0, -c.interval);
      forall e | e in s
        ensures e.timestamp <= duration && Kind(e.payload) in {k}
      {
        var j :| 0 <= j < |frames.value| && c.Time(j) <= duration
          && e == TimelineEvent(c.Time(j), wrap(frames.value[j]));
      }
    }
  }

  // ------------------------------------------------------------------ streams of one type

  /** A throttled stream of per-frame values of type `k`, built when `k` is enabled. */
  function ScalarStream(filter: EventFilter, k: EventType, frames: Option<seq<real>>, c: Timing, duration: real): Timeline
    requires c.Valid()
  {
    if k in filter then Throttled(frames, x => ScalarMsg(k, x), c, duration) else []
  }

  /** A throttled stream of per-frame vectors of type `k`, built when `k` is enabled. */
  function VectorStream(filter: EventFilter, k: EventType, frames: Option<seq<seq<real>>>, c: Timing, duration: real): Timeline
    requires c.Valid()
  {
    if k in filter then Throttled(frames, x => VectorMsg(k, x), c, duration) else []
  }

  method BuildScalarStream(filter: EventFilter, k: EventType, frames: Option<seq<real>>, c: Timing, duration: real)
    returns (added: Timeline)
    requires c.Valid()
    ensures added == ScalarStream(filter, k, frames, c, duration)
  {
    added := [];
    if k in filter {
      added := BuildThrottled(frames, x => ScalarMsg(k, x), c, duration);
    }
  }

  method BuildVectorStream(filter: EventFilter, k: EventType, frames: Option<seq<seq<real>>>, c: Timing, duration: real)
    returns (added: Timeline)
    requires c.Valid()
    ensures added == VectorStream(filter, k, frames, c, duration)
  {
    added := [];
    if k in filter {
      added := BuildThrottled(frames, x => VectorMsg(k, x), c, duration);
    }
  }

  /** A scalar stream holds only its enabled type, within the track, spaced by the interval. */
  lemma ScalarStreamFacts(filter: EventFilter, k: EventType, frames: Option<seq<real>>, c: Timing, duration: real)
    requires c.Valid() && Emittable(k)
    ensures var s := ScalarStream(filter, k, frames, c, duration);
      Gated(s, filter) && NotAfter(s, duration) && Spaced(s, k, -c.interval, c.interval)
  {
    if k in filter {
      ThrottledWithin(frames, x => ScalarMsg(k, x), k, c, duration);
      ThrottledSpaced(frames, x => ScalarMsg(k, x), k, c, duration);
    }
  }

  /** A vector stream holds only its enabled type, within the track, spaced by the interval. */
  lemma VectorStreamFacts(filter: EventFilter, k: EventType, frames: Option<seq<seq<real>>>, c: Timing, duration: real)
    requires c.Valid() && Emittable(k)
    ensures var s := VectorStream(filter, k, frames, c, duration);
      Gated(s, filter) && NotAfter(s, duration) && Spaced(s, k, -c.interval, c.interval)
  {
    if k in filter {
      ThrottledWithin(frames, x => VectorMsg(k, x), k, c, duration);
      ThrottledSpaced(frames, x => VectorMsg(k, x), k, c, duration);
    }
  }
}
