/** The point-event builders of src/analyzer.cpp: `build_beat_events`,
    `build_onset_events` and `build_silence_events`. */
module Rhythm {
  import opened Wrappers
  import opened Events
  import opened Envelopes
  import opened Features

  // ------------------------------------------------------------------ beats

  /** One beat per tick, at the tick; the confidence is set for the ticks that
      have one. */
  function BeatList(ticks: Frames, confidences: Frames): Timeline {
    seq(|ticks|, i requires 0 <= i < |ticks| =>
      TimelineEvent(ticks[i], BeatMsg(if i < |confidences| then Some(confidences[i]) else None)))
  }

  function Beats(pool: Pool, filter: EventFilter): Timeline {
    if Beat !in filter || pool.ticks.None? then []
    else BeatList(pool.ticks.value, pool.tickConfidence.GetOr([]))
  }

  method BuildBeats(pool: Pool, filter: EventFilter) returns (added: Timeline)
    ensures added == Beats(pool, filter)
  {
    added := [];
    if Beat !in filter || pool.ticks.None? {
      return;
    }
    var ticks := pool.ticks.value;
    var confidences: Frames := [];
    if pool.tickConfidence.Some? {
      confidences := pool.tickConfidence.value;
    }
    for i := 0 to |ticks|
      invariant added == BeatList(ticks[..i], confidences)
    {
      var confidence := if i < |confidences| then Some(confidences[i]) else None;
      added := added + [TimelineEvent(ticks[i], BeatMsg(confidence))];
    }
    assert ticks[..|ticks|] == ticks;
  }

  /** One beat per tick, in tick order, stamped with the tick; the confidence
      is present exactly for the ticks the tracker gave a confidence for. */
  lemma BeatsFacts(pool: Pool, filter: EventFilter)
    requires Beat in filter && pool.ticks.Some?
    ensures var r := Beats(pool, filter); var confs := pool.tickConfidence.GetOr([]);
      |r| == |pool.ticks.value|
      && (forall i :: 0 <= i < |r| ==>
            r[i].timestamp == pool.ticks.value[i] && r[i].payload.BeatMsg?
            && (r[i].payload.beatConfidence.Some? <==> i < |confs|)
            && (i < |confs| ==> r[i].payload.beatConfidence.value == confs[i]))
  {
  }

  lemma BeatsGated(pool: Pool, filter: EventFilter)
    ensures Gated(Beats(pool, filter), filter)
  {
  }

  // ------------------------------------------------------------------ onsets

  /** One onset of strength 1.0 per detected onset time. */
  function OnsetList(times: Frames): Timeline {
    seq(|times|, i requires 0 <= i < |times| => TimelineEvent(times[i], OnsetMsg(1.0)))
  }

  function Onsets(pool: Pool, filter: EventFilter): Timeline {
    if Onset !in filter || pool.onsetTimes.None? then [] else OnsetList(pool.onsetTimes.value)
  }

  method BuildOnsets(pool: Pool, filter: EventFilter) returns (added: Timeline)
    ensures added == Onsets(pool, filter)
  {
    added := [];
    if Onset !in filter || pool.onsetTimes.None? {
      return;
    }
    var onsets := pool.onsetTimes.value;
    for i := 0 to |onsets|
      invariant added == OnsetList(onsets[..i])
    {
      added := added + [TimelineEvent(onsets[i], OnsetMsg(1.0))];
    }
    assert onsets[..|onsets|] == onsets;
  }

  lemma OnsetsFacts(pool: Pool, filter: EventFilter)
    ensures var r := Onsets(pool, filter);
      Gated(r, filter)
      && (Onset in filter && pool.onsetTimes.Some? ==> |r| == |pool.onsetTimes.value|)
      && forall i :: 0 <= i < |r| ==> r[i] == TimelineEvent(pool.onsetTimes.value[i], OnsetMsg(1.0))
  {
  }

  // ------------------------------------------------------------------ silence

  /** The silence before the first sound: it ends at `startTime`. */
  function LeadingSilence(filter: EventFilter, startFrame: int, startTime: real): Timeline {
    if startFrame > 0 && startTime > 0.05 then
      (if SilenceStart in filter then [TimelineEvent(0.0, MarkerMsg(SilenceStart))] else [])
      + (if SilenceEnd in filter then [TimelineEvent(startTime, MarkerMsg(SilenceEnd))] else [])
      + (if Gap in filter then [TimelineEvent(0.0, GapMsg(startTime))] else [])
    else []
  }

  /** The silence after the last sound: it starts at `stopTime`. */
  function TrailingSilence(filter: EventFilter, stopTime: real, duration: real): Timeline {
    if stopTime < duration - 0.05 then
      (if SilenceStart in filter then [TimelineEvent(stopTime, MarkerMsg(SilenceStart))] else [])
      + (if SilenceEnd in filter then [TimelineEvent(duration, MarkerMsg(SilenceEnd))] else [])
      + (if Gap in filter then [TimelineEvent(stopTime, GapMsg(duration - stopTime))] else [])
    else []
  }

  /** The silence events: only the last start frame and the last stop frame
      reported by the silence pass are used, truncated to whole frames. */
  function Silences(pool: Pool, filter: EventFilter, hop: int, sampleRate: int, duration: real): Timeline
    requires sampleRate > 0
  {
    if !(SilenceStart in filter || SilenceEnd in filter || Gap in filter) then []
    else if pool.silenceStartFrames.None? || pool.silenceStopFrames.None? then []
    else
      var starts := pool.silenceStartFrames.value;
      var stops := pool.silenceStopFrames.value;
      if starts == [] || stops == [] then []
      else
        SilenceAround(filter, Trunc(starts[|starts| - 1]), Trunc(stops[|stops| - 1]), hop, sampleRate, duration)
  }

  /** The silence events for the frame where the sound starts and the frame
      where it stops. */
  function SilenceAround(filter: EventFilter, startFrame: int, stopFrame: int, hop: int, sampleRate: int,
                         duration: real): Timeline
    requires sampleRate > 0
  {
    LeadingSilence(filter, startFrame, FrameTime(startFrame, hop, sampleRate))
    + TrailingSilence(filter, FrameTime(stopFrame, hop, sampleRate), duration)
  }

  /** The leading events appear exactly when the sound starts after frame 0
      and more than 50 ms in, each only when its type is enabled; the gap
      lasts until the sound starts. */
  lemma LeadingSilenceFacts(filter: EventFilter, startFrame: int, startTime: real)
    ensures var r := LeadingSilence(filter, startFrame, startTime);
      var on := startFrame > 0 && startTime > 0.05;
      (TimelineEvent(0.0, MarkerMsg(SilenceStart)) in r <==> on && SilenceStart in filter)
      && (TimelineEvent(startTime, MarkerMsg(SilenceEnd)) in r <==> on && SilenceEnd in filter)
      && (TimelineEvent(0.0, GapMsg(startTime)) in r <==> on && Gap in filter)
      && |r| <= 3
      && Gated(r, filter)
  {
  }

  /** The trailing events appear exactly when the sound stops more than 50 ms
      before the end, each only when its type is enabled; the gap lasts until
      the end of the track. */
  lemma TrailingSilenceFacts(filter: EventFilter, stopTime: real, duration: real)
    ensures var r := TrailingSilence(filter, stopTime, duration);
      var on := stopTime < duration - 0.05;
      (TimelineEvent(stopTime, MarkerMsg(SilenceStart)) in r <==> on && SilenceStart in filter)
      && (TimelineEvent(duration, MarkerMsg(SilenceEnd)) in r <==> on && SilenceEnd in filter)
      && (TimelineEvent(stopTime, GapMsg(duration - stopTime)) in r <==> on && Gap in filter)
      && |r| <= 3
      && Gated(r, filter)
      && forall e :: e in r && e.payload.GapMsg? ==> e.payload.gap > 0.05
  {
  }

  /** Only the last start and stop frames matter: two pools that agree on
      them give the same silence events. */
  lemma SilencesUseLastFrames(p: Pool, q: Pool, filter: EventFilter, hop: int, sampleRate: int, duration: real)
    requires sampleRate > 0
    requires p.silenceStartFrames.Some? && p.silenceStopFrames.Some?
    requires q.silenceStartFrames.Some? && q.silenceStopFrames.Some?
    requires var a := p.silenceStartFrames.value; var b := q.silenceStartFrames.value;
      |a| > 0 && |b| > 0 && a[|a| - 1] == b[|b| - 1]
    requires var a := p.silenceStopFrames.value; var b := q.silenceStopFrames.value;
      |a| > 0 && |b| > 0 && a[|a| - 1] == b[|b| - 1]
    ensures Silences(p, filter, hop, sampleRate, duration) == Silences(q, filter, hop, sampleRate, duration)
  {
  }

  lemma SilencesGated(pool: Pool, filter: EventFilter, hop: int, sampleRate: int, duration: real)
    requires sampleRate > 0
    ensures Gated(Silences(pool, filter, hop, sampleRate, duration), filter)
  {
    var starts := pool.silenceStartFrames.GetOr([]);
    var stops := pool.silenceStopFrames.GetOr([]);
    var wanted := SilenceStart in filter || SilenceEnd in filter || Gap in filter;
    if wanted && pool.silenceStartFrames.Some? && pool.silenceStopFrames.Some? && starts != [] && stops != [] {
      var startFrame := Trunc(starts[|starts| - 1]);
      var stopFrame := Trunc(stops[|stops| - 1]);
      assert Silences(pool, filter, hop, sampleRate, duration)
        == SilenceAround(filter, startFrame, stopFrame, hop, sampleRate, duration);
      SilenceAroundGated(filter, startFrame, stopFrame, hop, sampleRate, duration);
    } else {
      assert Silences(pool, filter, hop, sampleRate, duration) == [];
    }
  }

  lemma SilenceAroundGated(filter: EventFilter, startFrame: int, stopFrame: int, hop: int, sampleRate: int,
                           duration: real)
    requires sampleRate > 0
    ensures Gated(SilenceAround(filter, startFrame, stopFrame, hop, sampleRate, duration), filter)
  {
    var startTime := FrameTime(startFrame, hop, sampleRate);
    var stopTime := FrameTime(stopFrame, hop, sampleRate);
    LeadingSilenceFacts(filter, startFrame, startTime);
    TrailingSilenceFacts(filter, stopTime, duration);
  }
}
