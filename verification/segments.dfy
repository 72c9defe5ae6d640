/** The segmentation builder of src/analyzer.cpp (`build_segmentation_events`).
    The Bayesian-information-criterion segmenter that turns the MFCC frames
    into boundary frame positions is not modelled: its output is a parameter. */
module Segments {
  import opened Events
  import opened Envelopes
  import opened Features

  const SizeModulus: int := 0x1_0000_0000_0000_0000

  /** The loop bound as written: `segmentation.size() - 1` on a 64-bit
      unsigned size, which wraps around when the segmentation is empty. */
  function LoopEndAsWritten(n: nat): (bound: int)
    ensures 0 <= bound < SizeModulus
  {
    (n - 1) % SizeModulus
  }

  /** With an empty segmentation the loop as written does not stop before
      index 1, and its first iteration reads index 1 of an empty list. */
  lemma EmptySegmentationReadsPastEnd(seg: seq<real>)
    requires seg == []
    ensures LoopEndAsWritten(|seg|) == SizeModulus - 1
    ensures 1 < LoopEndAsWritten(|seg|) && !(1 < |seg|)
  {
  }

  /** For every nonempty segmentation the bound as written is the corrected
      one, so the corrected loop below differs only where the loop as
      written reads past the end. */
  lemma LoopEndAgrees(n: nat)
    requires 1 <= n < SizeModulus
    ensures LoopEndAsWritten(n) == n - 1
  {
  }

  /** The time of boundary `i`: its frame position truncated to an integer. */
  function BoundaryTime(seg: seq<real>, c: Timing, i: nat): real
    requires c.Valid() && i < |seg|
  {
    c.Time(Trunc(seg[i]))
  }

  /** The boundary loop from `i` on, over the interior boundaries only (the
      segmenter reports the first and last frame too): a marker wherever the
      boundary lies strictly inside the track. */
  function SegmentFrom(seg: seq<real>, c: Timing, duration: real, i: nat): Timeline
    requires c.Valid() && i >= 1
    decreases |seg| - i
  {
    if i + 1 >= |seg| then []
    else
      (if 0.0 < BoundaryTime(seg, c, i) < duration then
         [TimelineEvent(BoundaryTime(seg, c, i), MarkerMsg(SegmentBoundary))]
       else [])
      + SegmentFrom(seg, c, duration, i + 1)
  }

  /** Segment boundaries, when SEGMENT_BOUNDARY is enabled and the pool holds
      at least ten MFCC frames. */
  function SegmentEvents(pool: Pool, filter: EventFilter, seg: seq<real>, c: Timing, duration: real): Timeline
    requires c.Valid()
  {
    if SegmentBoundary !in filter || pool.mfcc.None? || |pool.mfcc.value| < 10 then []
    else SegmentFrom(seg, c, duration, 1)
  }

  method BuildSegments(pool: Pool, filter: EventFilter, seg: seq<real>, c: Timing, duration: real)
    returns (added: Timeline)
    requires c.Valid()
    ensures added == SegmentEvents(pool, filter, seg, c, duration)
  {
    added := [];
    if SegmentBoundary !in filter || pool.mfcc.None? || |pool.mfcc.value| < 10 {
      return;
    }
    var i := 1;
    while i + 1 < |seg|
      invariant i >= 1
      invariant added + SegmentFrom(seg, c, duration, i) == SegmentFrom(seg, c, duration, 1)
      decreases |seg| - i
    {
      var t := c.Time(Trunc(seg[i]));
      var step: Timeline := [];
      if 0.0 < t < duration {
        step := [TimelineEvent(t, MarkerMsg(SegmentBoundary))];
      }
      assert SegmentFrom(seg, c, duration, i) == step + SegmentFrom(seg, c, duration, i + 1);
      AppendAssoc(added, step, SegmentFrom(seg, c, duration, i + 1));
      added := added + step;
      i := i + 1;
    }
  }

  /** The marker an interior boundary makes when it lies inside the track. */
  ghost predicate BoundaryAt(seg: seq<real>, c: Timing, duration: real, i: nat, e: TimelineEvent)
    requires c.Valid()
  {
    exists j :: i <= j < |seg| - 1 && 0.0 < BoundaryTime(seg, c, j) < duration
      && e == TimelineEvent(BoundaryTime(seg, c, j), MarkerMsg(SegmentBoundary))
  }

  lemma {:induction false} SegmentFromExact(seg: seq<real>, c: Timing, duration: real, i: nat)
    requires c.Valid() && i >= 1
    ensures forall e :: e in SegmentFrom(seg, c, duration, i) <==> BoundaryAt(seg, c, duration, i, e)
    decreases |seg| - i
  {
    if i + 1 < |seg| {
      SegmentFromExact(seg, c, duration, i + 1);
      var s := SegmentFrom(seg, c, duration, i);
      forall e
        ensures e in s <==> BoundaryAt(seg, c, duration, i, e)
      {
        if BoundaryAt(seg, c, duration, i, e) {
          var j :| i <= j < |seg| - 1 && 0.0 < BoundaryTime(seg, c, j) < duration
            && e == TimelineEvent(BoundaryTime(seg, c, j), MarkerMsg(SegmentBoundary));
          if j > i {
            assert BoundaryAt(seg, c, duration, i + 1, e);
          }
        }
        if e in s && e !in SegmentFrom(seg, c, duration, i + 1) {
          assert e == TimelineEvent(BoundaryTime(seg, c, i), MarkerMsg(SegmentBoundary));
        }
      }
    }
  }

  /** When the builder runs, its markers are exactly the interior boundaries
      lying strictly inside the track; in every case they are enabled and
      strictly between zero and the duration. */
  lemma SegmentEventsFacts(pool: Pool, filter: EventFilter, seg: seq<real>, c: Timing, duration: real)
    requires c.Valid()
    ensures var s := SegmentEvents(pool, filter, seg, c, duration);
      Gated(s, filter) && NotAfter(s, duration)
      && forall e :: e in s ==> 0.0 < e.timestamp < duration
    ensures SegmentBoundary in filter && pool.mfcc.Some? && |pool.mfcc.value| >= 10 ==>
      forall e :: e in SegmentEvents(pool, filter, seg, c, duration) <==> BoundaryAt(seg, c, duration, 1, e)
  {
    SegmentFromExact(seg, c, duration, 1);
    if SegmentBoundary in filter && pool.mfcc.Some? && |pool.mfcc.value| >= 10 {
      forall e | e in SegmentEvents(pool, filter, seg, c, duration)
        ensures Kind(e.payload) in filter && Emittable(Kind(e.payload)) && 0.0 < e.timestamp < duration
      {
        var j :| 1 <= j < |seg| - 1 && 0.0 < BoundaryTime(seg, c, j) < duration
          && e == TimelineEvent(BoundaryTime(seg, c, j), MarkerMsg(SegmentBoundary));
      }
    }
  }
}
