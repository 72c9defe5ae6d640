/** The pitch and melody builders of src/analyzer.cpp (`build_pitch_events`,
    `build_melody_events`). */
module Melodic {
  import opened Wrappers
  import opened Events
  import opened Envelopes
  import opened Features

  // ------------------------------------------------------------------ pitch

  /** The confidence of frame `i`; zero past the end of the confidence list. */
  function Conf(confs: seq<real>, i: nat): real {
    if i < |confs| then confs[i] else 0.0
  }

  /** The pitch sample of frame `i`: when PITCH is enabled, the interval has
      passed since the last sample and the confidence exceeds 0.3. */
  function PitchEvent(pitches: Frames, confs: Frames, filter: EventFilter, c: Timing, i: nat, last: real): Timeline
    requires c.Valid() && i < |pitches|
  {
    if Pitch in filter && c.Time(i) - last >= c.interval && Conf(confs, i) > 0.3 then
      [TimelineEvent(c.Time(i), PitchMsg(pitches[i], Conf(confs, i)))]
    else []
  }

  /** Whether going from `prev` to `freq` Hz is a jump of more than about a
      semitone: a ratio above 1.06 or below 0.94. */
  predicate IsJump(prev: real, freq: real)
    requires prev > 0.0
  {
    freq / prev > 1.06 || freq / prev < 0.94
  }

  /** The pitch change of frame `i`: when PITCH_CHANGE is enabled, the frame
      is not the first, its confidence exceeds 0.5, both the previous and the
      current pitch are positive and they are a jump apart. */
  function ChangeEvent(pitches: Frames, confs: Frames, filter: EventFilter, c: Timing, i: nat, prev: real): Timeline
    requires c.Valid() && i < |pitches|
  {
    if PitchChange in filter && i > 0 && Conf(confs, i) > 0.5 && prev > 0.0 && pitches[i] > 0.0
       && IsJump(prev, pitches[i]) then
      [TimelineEvent(c.Time(i), PitchChangeMsg(prev, pitches[i]))]
    else []
  }

  /** The pitch loop from frame `i` on: `last` is the time of the last pitch
      sample, `prev` the last pitch heard with a confidence above 0.3. */
  function PitchFrom(pitches: Frames, confs: Frames, filter: EventFilter, c: Timing, duration: real,
                     i: nat, last: real, prev: real): Timeline
    requires c.Valid()
    decreases |pitches| - i
  {
    if i >= |pitches| || c.Time(i) > duration then []
    else
      var emitted := PitchEvent(pitches, confs, filter, c, i, last);
      emitted + ChangeEvent(pitches, confs, filter, c, i, prev)
      + PitchFrom(pitches, confs, filter, c, duration, i + 1,
                  if emitted != [] then c.Time(i) else last,
                  if Conf(confs, i) > 0.3 then pitches[i] else prev)
  }

  /** The pitch confidences of the pool; a missing list counts as empty. */
  function Confidences(pool: Pool): Frames {
    if pool.pitchConfidence.None? then [] else pool.pitchConfidence.value
  }

  /** The pitch events: nothing unless PITCH or PITCH_CHANGE is enabled and the
      pool holds pitches; a missing confidence list counts as empty. */
  function Pitches(pool: Pool, filter: EventFilter, c: Timing, duration: real): Timeline
    requires c.Valid()
  {
    if (Pitch !in filter && PitchChange !in filter) || pool.pitch.None? then []
    else
      PitchFrom(pool.pitch.value, Confidences(pool), filter, c, duration, 0, -c.interval, 0.0)
  }

  method BuildPitch(pool: Pool, filter: EventFilter, c: Timing, duration: real) returns (added: Timeline)
    requires c.Valid()
    ensures added == Pitches(pool, filter, c, duration)
  {
    added := [];
    var wantPitch := Pitch in filter;
    var wantChange := PitchChange in filter;
    if !wantPitch && !wantChange {
      return;
    }
    if pool.pitch.None? {
      return;
    }
    var pitches := pool.pitch.value;
    var confs := [];
    if pool.pitchConfidence.Some? {
      confs := pool.pitchConfidence.value;
    }
    var last := -c.interval;
    var prev := 0.0;
    var i := 0;
    while i < |pitches|
      invariant 0 <= i <= |pitches|
      invariant added + PitchFrom(pitches, confs, filter, c, duration, i, last, prev)
        == PitchFrom(pitches, confs, filter, c, duration, 0, -c.interval, 0.0)
    {
      var t := c.Time(i);
      if t > duration {
        break;
      }
      var frame, emitted := PitchFrame(pitches, confs, filter, c, i, last, prev);
      ghost var rest := PitchFrom(pitches, confs, filter, c, duration, i + 1,
                                  if emitted then t else last,
                                  if Conf(confs, i) > 0.3 then pitches[i] else prev);
      if emitted {
        last := t;
      }
      if Conf(confs, i) > 0.3 {
        prev := pitches[i];
      }
      AppendAssoc(added, frame, rest);
      added := added + frame;
      i := i + 1;
    }
  }

  /** The two tests of one frame of the pitch loop. */
  method PitchFrame(pitches: Frames, confs: Frames, filter: EventFilter, c: Timing, i: nat, last: real, prev: real)
    returns (frame: Timeline, emitted: bool)
    requires c.Valid() && i < |pitches|
    ensures frame == PitchEvent(pitches, confs, filter, c, i, last) + ChangeEvent(pitches, confs, filter, c, i, prev)
    ensures emitted <==> PitchEvent(pitches, confs, filter, c, i, last) != []
  {
    var t := c.Time(i);
    var freq := pitches[i];
    var conf := if i < |confs| then confs[i] else 0.0;
    frame := [];
    emitted := false;
    if Pitch in filter && t - last >= c.interval && conf > 0.3 {
      frame := [TimelineEvent(t, PitchMsg(freq, conf))];
      emitted := true;
    }
    if PitchChange in filter && i > 0 && conf > 0.5 && prev > 0.0 && freq > 0.0 {
      var ratio := freq / prev;
      if ratio > 1.06 || ratio < 0.94 {
        frame := frame + [TimelineEvent(t, PitchChangeMsg(prev, freq))];
      }
    }
  }

  /** The reference for the previous pitch at frame `i`: the pitch of the
      latest frame before `i` heard with a confidence above 0.3, or zero. */
  function PrevPitch(pitches: Frames, confs: Frames, i: nat): real
    requires i <= |pitches|
  {
    if i == 0 then 0.0
    else if Conf(confs, i - 1) > 0.3 then pitches[i - 1]
    else PrevPitch(pitches, confs, i - 1)
  }

  /** A pitch sample is a frame within the track heard with a confidence
      above 0.3, carrying its frequency and confidence. */
  ghost predicate PitchAt(pitches: Frames, confs: Frames, c: Timing, duration: real, e: TimelineEvent)
    requires c.Valid()
  {
    exists j :: 0 <= j < |pitches| && c.Time(j) <= duration && Conf(confs, j) > 0.3
      && e == TimelineEvent(c.Time(j), PitchMsg(pitches[j], Conf(confs, j)))
  }

  /** A pitch change is a frame after the first, within the track, heard with a
      confidence above 0.5, whose positive pitch is a jump away from the
      positive previous pitch; it carries both. */
  ghost predicate ChangeAt(pitches: Frames, confs: Frames, c: Timing, duration: real, e: TimelineEvent)
    requires c.Valid()
  {
    exists j :: 0 < j < |pitches| && c.Time(j) <= duration && Conf(confs, j) > 0.5
      && PrevPitch(pitches, confs, j) > 0.0 && pitches[j] > 0.0
      && IsJump(PrevPitch(pitches, confs, j), pitches[j])
      && e == TimelineEvent(c.Time(j), PitchChangeMsg(PrevPitch(pitches, confs, j), pitches[j]))
  }

  lemma {:induction false} PitchFromDrawn(pitches: Frames, confs: Frames, filter: EventFilter, c: Timing,
                                          duration: real, i: nat, last: real, prev: real)
    requires c.Valid() && i <= |pitches| && prev == PrevPitch(pitches, confs, i)
    ensures forall e :: e in PitchFrom(pitches, confs, filter, c, duration, i, last, prev) ==>
      (e.payload.PitchMsg? && Pitch in filter && PitchAt(pitches, confs, c, duration, e))
      || (e.payload.PitchChangeMsg? && PitchChange in filter && ChangeAt(pitches, confs, c, duration, e))
    decreases |pitches| - i
  {
    if i < |pitches| && c.Time(i) <= duration {
      var pe := PitchEvent(pitches, confs, filter, c, i, last);
      var ce := ChangeEvent(pitches, confs, filter, c, i, prev);
      var nextLast := if pe != [] then c.Time(i) else last;
      var nextPrev := if Conf(confs, i) > 0.3 then pitches[i] else prev;
      PitchFromDrawn(pitches, confs, filter, c, duration, i + 1, nextLast, nextPrev);
      if pe != [] {
        assert PitchAt(pitches, confs, c, duration, pe[0]);
      }
      if ce != [] {
        assert ChangeAt(pitches, confs, c, duration, ce[0]);
      }
    }
  }

  /** One frame within the track: its change event and everything reported
      from the next frame on are part of what is reported from it. */
  lemma PitchFromStep(pitches: Frames, confs: Frames, filter: EventFilter, c: Timing, duration: real,
                      i: nat, last: real, prev: real)
    requires c.Valid() && i < |pitches| && c.Time(i) <= duration
    ensures var here := PitchFrom(pitches, confs, filter, c, duration, i, last, prev);
      var nextLast := if PitchEvent(pitches, confs, filter, c, i, last) != [] then c.Time(i) else last;
      var nextPrev := if Conf(confs, i) > 0.3 then pitches[i] else prev;
      (forall e :: e in ChangeEvent(pitches, confs, filter, c, i, prev) ==> e in here)
      && (forall e :: e in PitchFrom(pitches, confs, filter, c, duration, i + 1, nextLast, nextPrev) ==> e in here)
  {
  }

  /** From frame i on, with `prev` the previous pitch at i, every frame j
      that meets the pitch-change test against its previous pitch is
      reported, when no frame from i to j lies past the end of the track. */
  lemma {:induction false} PitchFromReportsChange(pitches: Frames, confs: Frames, filter: EventFilter,
                                                  c: Timing, duration: real, i: nat, last: real,
                                                  prev: real, j: nat)
    requires c.Valid() && i <= j < |pitches| && prev == PrevPitch(pitches, confs, i)
    requires forall k :: i <= k <= j ==> c.Time(k) <= duration
    requires PitchChange in filter && 0 < j && Conf(confs, j) > 0.5
    requires PrevPitch(pitches, confs, j) > 0.0 && pitches[j] > 0.0
    requires IsJump(PrevPitch(pitches, confs, j), pitches[j])
    ensures TimelineEvent(c.Time(j), PitchChangeMsg(PrevPitch(pitches, confs, j), pitches[j]))
      in PitchFrom(pitches, confs, filter, c, duration, i, last, prev)
    decreases j - i
  {
    assert c.Time(i) <= duration;
    PitchFromStep(pitches, confs, filter, c, duration, i, last, prev);
    if i < j {
      var nextLast := if PitchEvent(pitches, confs, filter, c, i, last) != [] then c.Time(i) else last;
      var nextPrev := if Conf(confs, i) > 0.3 then pitches[i] else prev;
      PitchFromReportsChange(pitches, confs, filter, c, duration, i + 1, nextLast, nextPrev, j);
    } else {
      assert TimelineEvent(c.Time(j), PitchChangeMsg(prev, pitches[j])) in ChangeEvent(pitches, confs, filter, c, i, prev);
    }
  }

  /** Every frame that meets the pitch-change test is reported: after the
      first, heard with a confidence above 0.5, a positive pitch a jump away
      from the positive previous pitch, when PITCH_CHANGE is enabled and no
      frame up to it lies past the end of the track. */
  lemma ChangeReported(pool: Pool, filter: EventFilter, c: Timing, duration: real, j: nat)
    requires c.Valid() && pool.pitch.Some? && PitchChange in filter && 0 < j < |pool.pitch.value|
    requires forall k :: 0 <= k <= j ==> c.Time(k) <= duration
    requires Conf(Confidences(pool), j) > 0.5 && PrevPitch(pool.pitch.value, Confidences(pool), j) > 0.0
      && pool.pitch.value[j] > 0.0 && IsJump(PrevPitch(pool.pitch.value, Confidences(pool), j), pool.pitch.value[j])
    ensures TimelineEvent(c.Time(j), PitchChangeMsg(PrevPitch(pool.pitch.value, Confidences(pool), j), pool.pitch.value[j]))
      in Pitches(pool, filter, c, duration)
  {
    var pitches := pool.pitch.value;
    var confs := Confidences(pool);
    assert Pitches(pool, filter, c, duration) == PitchFrom(pitches, confs, filter, c, duration, 0, -c.interval, 0.0);
    assert PrevPitch(pitches, confs, 0) == 0.0;
    PitchFromReportsChange(pitches, confs, filter, c, duration, 0, -c.interval, 0.0, j);
  }

  /** The pitch samples alone are throttled: each comes at least the interval
      after the previous one. */
  lemma {:induction false} PitchFromSpaced(pitches: Frames, confs: Frames, filter: EventFilter, c: Timing,
                                           duration: real, i: nat, last: real, prev: real)
    requires c.Valid()
    ensures Spaced(PitchFrom(pitches, confs, filter, c, duration, i, last, prev), Pitch, last, c.interval)
    decreases |pitches| - i
  {
    if i < |pitches| && c.Time(i) <= duration {
      var nextLast := if PitchEvent(pitches, confs, filter, c, i, last) != [] then c.Time(i) else last;
      PitchFromSpaced(pitches, confs, filter, c, duration, i + 1, nextLast,
                      if Conf(confs, i) > 0.3 then pitches[i] else prev);
      PitchStepSpaced(pitches, confs, filter, c, duration, i, last, prev);
    }
  }

  /** One frame of the pitch loop keeps the samples spaced, given that the
      rest of the loop is spaced from the frame's last sample. */
  lemma PitchStepSpaced(pitches: Frames, confs: Frames, filter: EventFilter, c: Timing,
                        duration: real, i: nat, last: real, prev: real)
    requires c.Valid() && i < |pitches| && c.Time(i) <= duration
    requires var nextLast := if PitchEvent(pitches, confs, filter, c, i, last) != [] then c.Time(i) else last;
      Spaced(PitchFrom(pitches, confs, filter, c, duration, i + 1, nextLast,
                       if Conf(confs, i) > 0.3 then pitches[i] else prev), Pitch, nextLast, c.interval)
    ensures Spaced(PitchFrom(pitches, confs, filter, c, duration, i, last, prev), Pitch, last, c.interval)
  {
    var pe := PitchEvent(pitches, confs, filter, c, i, last);
    var nextLast := if pe != [] then c.Time(i) else last;
    var rest := PitchFrom(pitches, confs, filter, c, duration, i + 1, nextLast,
                          if Conf(confs, i) > 0.3 then pitches[i] else prev);
    FrameSpaced(pitches, confs, filter, c, i, last, prev);
    SpacedStep(pe + ChangeEvent(pitches, confs, filter, c, i, prev), rest, Pitch, last, nextLast, c.interval);
  }

  lemma FrameSpaced(pitches: Frames, confs: Frames, filter: EventFilter, c: Timing, i: nat, last: real, prev: real)
    requires c.Valid() && i < |pitches|
    ensures var pe := PitchEvent(pitches, confs, filter, c, i, last);
      var frame := pe + ChangeEvent(pitches, confs, filter, c, i, prev);
      Spaced(frame, Pitch, last, c.interval)
      && LastEmit(frame, Pitch, last) == (if pe != [] then c.Time(i) else last)
  {
    var pe := PitchEvent(pitches, confs, filter, c, i, last);
    var ce := ChangeEvent(pitches, confs, filter, c, i, prev);
    if pe != [] {
      SpacedSingle(pe[0], Pitch, last, c.interval);
      SpacedOther(ce, Pitch, c.Time(i), c.interval);
      SpacedConcat(pe, ce, Pitch, last, c.interval);
      LastEmitConcat(pe, ce, Pitch, last);
    } else {
      assert pe + ce == ce;
      SpacedOther(ce, Pitch, last, c.interval);
    }
  }

  /** Pitch samples are at least the continuous interval apart. */
  lemma PitchesSpaced(pool: Pool, filter: EventFilter, c: Timing, duration: real)
    requires c.Valid()
    ensures Spaced(Pitches(pool, filter, c, duration), Pitch, -c.interval, c.interval)
  {
    if (Pitch in filter || PitchChange in filter) && pool.pitch.Some? {
      PitchFromSpaced(pool.pitch.value, Confidences(pool), filter, c, duration, 0, -c.interval, 0.0);
    }
  }

  /** With PITCH enabled, frame 0 is the first pitch sample when it is heard
      with a confidence above 0.3. */
  lemma PitchFirst(pool: Pool, filter: EventFilter, c: Timing, duration: real)
    requires c.Valid() && Pitch in filter && pool.pitch.Some? && pool.pitch.value != []
    requires Conf(Confidences(pool), 0) > 0.3 && duration >= 0.0
    ensures var s := Pitches(pool, filter, c, duration);
      |s| > 0 && s[0] == TimelineEvent(0.0, PitchMsg(pool.pitch.value[0], Conf(Confidences(pool), 0)))
  {
  }

  /** Pitch events are samples heard with a confidence above 0.3 and changes
      whose endpoints are the previous confident pitch and the current one;
      all enabled and within the track. */
  lemma PitchesFacts(pool: Pool, filter: EventFilter, c: Timing, duration: real)
    requires c.Valid()
    ensures var s := Pitches(pool, filter, c, duration);
      Gated(s, filter) && NotAfter(s, duration)
    ensures pool.pitch.Some? ==>
      var confs := Confidences(pool);
      forall e :: e in Pitches(pool, filter, c, duration) ==>
        PitchAt(pool.pitch.value, confs, c, duration, e) || ChangeAt(pool.pitch.value, confs, c, duration, e)
  {
    if (Pitch in filter || PitchChange in filter) && pool.pitch.Some? {
      var pitches := pool.pitch.value;
      var confs := Confidences(pool);
      PitchFromDrawn(pitches, confs, filter, c, duration, 0, -c.interval, 0.0);
      forall e | e in Pitches(pool, filter, c, duration)
        ensures Kind(e.payload) in filter && Emittable(Kind(e.payload)) && e.timestamp <= duration
      {
        DrawnWithin(pitches, confs, c, duration, e);
      }
    }
  }

  /** A pitch sample or a pitch change lies within the track. */
  lemma DrawnWithin(pitches: Frames, confs: Frames, c: Timing, duration: real, e: TimelineEvent)
    requires c.Valid()
    requires PitchAt(pitches, confs, c, duration, e) || ChangeAt(pitches, confs, c, duration, e)
    ensures e.timestamp <= duration
  {
    if PitchAt(pitches, confs, c, duration, e) {
      var j :| 0 <= j < |pitches| && c.Time(j) <= duration && Conf(confs, j) > 0.3
        && e == TimelineEvent(c.Time(j), PitchMsg(pitches[j], Conf(confs, j)));
    } else {
      var j :| 0 < j < |pitches| && c.Time(j) <= duration && Conf(confs, j) > 0.5
        && PrevPitch(pitches, confs, j) > 0.0 && pitches[j] > 0.0
        && IsJump(PrevPitch(pitches, confs, j), pitches[j])
        && e == TimelineEvent(c.Time(j), PitchChangeMsg(PrevPitch(pitches, confs, j), pitches[j]));
    }
  }

  // ------------------------------------------------------------------ melody

  /** The melody loop from frame `i` on: unvoiced frames (frequency at most
      zero) are skipped without touching the throttle; voiced ones are
      throttled by the interval. */
  function MelodyFrom(freqs: Frames, c: Timing, duration: real, i: nat, last: real): Timeline
    requires c.Valid()
    decreases |freqs| - i
  {
    if i >= |freqs| || c.Time(i) > duration then []
    else if freqs[i] <= 0.0 then MelodyFrom(freqs, c, duration, i + 1, last)
    else if c.Time(i) - last >= c.interval then
      [TimelineEvent(c.Time(i), ScalarMsg(Melody, freqs[i]))] + MelodyFrom(freqs, c, duration, i + 1, c.Time(i))
    else MelodyFrom(freqs, c, duration, i + 1, last)
  }

  /** The melody: the first contour of the pool, when MELODY is enabled and
      the pool holds one. */
  function Melodies(pool: Pool, filter: EventFilter, c: Timing, duration: real): Timeline
    requires c.Valid()
  {
    if Melody !in filter || pool.melody.None? || |pool.melody.value| == 0 then []
    else MelodyFrom(pool.melody.value[0], c, duration, 0, -c.interval)
  }

  method BuildMelody(pool: Pool, filter: EventFilter, c: Timing, duration: real) returns (added: Timeline)
    requires c.Valid()
    ensures added == Melodies(pool, filter, c, duration)
  {
    added := [];
    if Melody !in filter || pool.melody.None? || |pool.melody.value| == 0 {
      return;
    }
    var freqs := pool.melody.value[0];
    var last := -c.interval;
    for i := 0 to |freqs|
      invariant added + MelodyFrom(freqs, c, duration, i, last) == MelodyFrom(freqs, c, duration, 0, -c.interval)
    {
      var t := c.Time(i);
      if t > duration {
        break;
      }
      var freq := freqs[i];
      if freq <= 0.0 {
        continue;
      }
      if t - last >= c.interval {
        added := added + [TimelineEvent(t, ScalarMsg(Melody, freq))];
        last := t;
      }
    }
  }

  lemma {:induction false} MelodyFromSpaced(freqs: Frames, c: Timing, duration: real, i: nat, last: real)
    requires c.Valid()
    ensures Spaced(MelodyFrom(freqs, c, duration, i, last), Melody, last, c.interval)
    decreases |freqs| - i
  {
    if i < |freqs| && c.Time(i) <= duration {
      if freqs[i] <= 0.0 || c.Time(i) - last < c.interval {
        MelodyFromSpaced(freqs, c, duration, i + 1, last);
      } else {
        var e := TimelineEvent(c.Time(i), ScalarMsg(Melody, freqs[i]));
        SpacedSingle(e, Melody, last, c.interval);
        MelodyFromSpaced(freqs, c, duration, i + 1, c.Time(i));
        SpacedConcat([e], MelodyFrom(freqs, c, duration, i + 1, c.Time(i)), Melody, last, c.interval);
      }
    }
  }

  /** A melody event is a voiced frame of the contour within the track,
      carrying its frequency. */
  ghost predicate VoicedAt(freqs: Frames, c: Timing, duration: real, e: TimelineEvent)
    requires c.Valid()
  {
    exists j :: 0 <= j < |freqs| && c.Time(j) <= duration && freqs[j] > 0.0
      && e == TimelineEvent(c.Time(j), ScalarMsg(Melody, freqs[j]))
  }

  lemma {:induction false} MelodyFromVoiced(freqs: Frames, c: Timing, duration: real, i: nat, last: real)
    requires c.Valid()
    ensures forall e :: e in MelodyFrom(freqs, c, duration, i, last) ==> VoicedAt(freqs, c, duration, e)
    decreases |freqs| - i
  {
    if i < |freqs| && c.Time(i) <= duration {
      var next := if freqs[i] > 0.0 && c.Time(i) - last >= c.interval then c.Time(i) else last;
      MelodyFromVoiced(freqs, c, duration, i + 1, next);
      if freqs[i] > 0.0 {
        assert VoicedAt(freqs, c, duration, TimelineEvent(c.Time(i), ScalarMsg(Melody, freqs[i])));
      }
    }
  }

  /** Melody events are spaced by the continuous interval. */
  lemma MelodiesSpaced(pool: Pool, filter: EventFilter, c: Timing, duration: real)
    requires c.Valid()
    ensures Spaced(Melodies(pool, filter, c, duration), Melody, -c.interval, c.interval)
  {
    if Melody in filter && pool.melody.Some? && |pool.melody.value| > 0 {
      MelodyFromSpaced(pool.melody.value[0], c, duration, 0, -c.interval);
    }
  }

  /** With MELODY enabled, a voiced frame 0 of the first contour is the
      first melody event. */
  lemma MelodyFirst(pool: Pool, filter: EventFilter, c: Timing, duration: real)
    requires c.Valid() && Melody in filter && pool.melody.Some? && |pool.melody.value| > 0
    requires pool.melody.value[0] != [] && pool.melody.value[0][0] > 0.0 && duration >= 0.0
    ensures var s := Melodies(pool, filter, c, duration);
      |s| > 0 && s[0] == TimelineEvent(0.0, ScalarMsg(Melody, pool.melody.value[0][0]))
  {
  }

  /** Melody events are voiced frames only (frequency above zero), enabled and
      within the track. */
  lemma MelodiesFacts(pool: Pool, filter: EventFilter, c: Timing, duration: real)
    requires c.Valid()
    ensures var s := Melodies(pool, filter, c, duration);
      Gated(s, filter) && NotAfter(s, duration)
    ensures pool.melody.Some? && |pool.melody.value| > 0 ==>
      forall e :: e in Melodies(pool, filter, c, duration) ==> VoicedAt(pool.melody.value[0], c, duration, e)
  {
    if Melody in filter && pool.melody.Some? && |pool.melody.value| > 0 {
      var freqs := pool.melody.value[0];
      MelodyFromVoiced(freqs, c, duration, 0, -c.interval);
      forall e | e in Melodies(pool, filter, c, duration)
        ensures Kind(e.payload) in filter && Emittable(Kind(e.payload)) && e.timestamp <= duration
      {
        var j :| 0 <= j < |freqs| && c.Time(j) <= duration && freqs[j] > 0.0
          && e == TimelineEvent(c.Time(j), ScalarMsg(Melody, freqs[j]));
      }
    }
  }
}
