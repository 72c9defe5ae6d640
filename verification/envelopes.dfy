/** The events the analyzer produces (src/events.h `TimelineEvent`) and the
    frame clock it stamps them with (src/analyzer.cpp `frame_to_time`).

    The serialized protobuf envelope of a timeline event is modelled by the
    payload it serializes: one constructor per message the analyzer sets,
    with the fields it sets. Serialization itself is opaque. */
module Envelopes {
  import opened Wrappers
  import opened Events

  datatype Payload =
    | TrackStartMsg(filename: string, duration: real, sampleRate: int, channels: int)
    | TrackEndMsg
    | TrackPositionMsg(position: real)
    | TrackAbortMsg(reason: string)
      /** A beat; the confidence is set only when the tracker reported one. */
    | BeatMsg(beatConfidence: Option<real>)
    | OnsetMsg(strength: real)
      /** A message without fields: SILENCE_START, SILENCE_END, SEGMENT_BOUNDARY. */
    | MarkerMsg(marker: EventType)
    | GapMsg(gap: real)
      /** A message holding one value: loudness, peaks, energy, the scalar
          spectral and tonal features, melody frequency. */
    | ScalarMsg(scalar: EventType, value: real)
      /** A message holding a vector: contrast, MFCC, the bands, chroma. */
    | VectorMsg(vector: EventType, values: seq<real>)
    | DynamicChangeMsg(magnitude: real)
      /** A timbre change; carries the squared MFCC distance (the envelope
          carries its square root). */
    | TimbreChangeMsg(squaredDistance: real)
    | KeyChangeMsg(key: string, scale: string, keyStrength: real)
    | ChordChangeMsg(chord: string, chordStrength: Option<real>)
    | PitchMsg(frequency: real, confidence: real)
    | PitchChangeMsg(fromHz: real, toHz: real)

  /** The event type a payload announces. */
  function Kind(p: Payload): EventType {
    match p
    case TrackStartMsg(_, _, _, _) => TrackStart
    case TrackEndMsg => TrackEnd
    case TrackPositionMsg(_) => TrackPosition
    case TrackAbortMsg(_) => TrackAbort
    case BeatMsg(_) => Beat
    case OnsetMsg(_) => Onset
    case MarkerMsg(k) => k
    case GapMsg(_) => Gap
    case ScalarMsg(k, _) => k
    case VectorMsg(k, _) => k
    case DynamicChangeMsg(_) => DynamicChange
    case TimbreChangeMsg(_) => TimbreChange
    case KeyChangeMsg(_, _, _) => KeyChange
    case ChordChangeMsg(_, _) => ChordChange
    case PitchMsg(_, _) => Pitch
    case PitchChangeMsg(_, _) => PitchChange
  }

  /** A timeline entry: when to send it (seconds from the start of the file)
      and what it says. */
  datatype TimelineEvent = TimelineEvent(timestamp: real, payload: Payload)

  type Timeline = seq<TimelineEvent>

  /** Every event of `s` is of a type in `allowed`. */
  predicate KindsIn(s: Timeline, allowed: set<EventType>) {
    forall e :: e in s ==> Kind(e.payload) in allowed
  }

  /** Every event of `s` is stamped at most `bound`. */
  predicate NotAfter(s: Timeline, bound: real) {
    forall e :: e in s ==> e.timestamp <= bound
  }

  /** The types some builder of src/analyzer.cpp emits. TEMPO_CHANGE,
      DOWNBEAT, ONSET_RATE, NOVELTY, TUNING, the fades, the quality types and
      the envelope types are accepted by the filter but never built. */
  predicate Emittable(t: EventType) {
    t.Beat? || t.Onset? || t.SilenceStart? || t.SilenceEnd? || t.Gap?
    || t.Loudness? || t.LoudnessPeak? || t.DynamicChange? || t.Energy?
    || t.SpectralCentroid? || t.SpectralFlux? || t.SpectralComplexity? || t.SpectralContrast?
    || t.SpectralRolloff? || t.Hfc? || t.Mfcc? || t.TimbreChange?
    || t.BandsMel? || t.BandsBark? || t.BandsErb?
    || t.Chroma? || t.KeyChange? || t.ChordChange? || t.Dissonance? || t.Inharmonicity?
    || t.Pitch? || t.PitchChange? || t.Melody? || t.SegmentBoundary?
  }

  /** Every event of `s` is of a type the filter enables and a builder emits. */
  predicate Gated(s: Timeline, filter: EventFilter) {
    forall e :: e in s ==> Kind(e.payload) in filter && Emittable(Kind(e.payload))
  }

  lemma GatedAppend(a: Timeline, b: Timeline, filter: EventFilter)
    requires Gated(a, filter) && Gated(b, filter)
    ensures Gated(a + b, filter)
  {
  }

  lemma NotAfterAppend(a: Timeline, b: Timeline, bound: real)
    requires NotAfter(a, bound) && NotAfter(b, bound)
    ensures NotAfter(a + b, bound)
  {
  }

  lemma AppendAssoc(a: Timeline, b: Timeline, c: Timeline)
    ensures (a + b) + c == a + (b + c)
  {
  }

  // ------------------------------------------------------------------ throttling

  /** The timestamp of the last event of type `k` in `s`, or `init` when there is none. */
  function LastEmit(s: Timeline, k: EventType, init: real): real
    decreases |s|
  {
    if s == [] then init
    else if Kind(s[|s| - 1].payload) == k then s[|s| - 1].timestamp
    else LastEmit(s[..|s| - 1], k, init)
  }

  /** Each event of type `k` in `s` comes at least `interval` after the previous
      event of type `k`, or after `init` for the first one. */
  predicate Spaced(s: Timeline, k: EventType, init: real, interval: real) {
    forall i {:trigger LastEmit(s[..i], k, init)} :: 0 <= i < |s| && Kind(s[i].payload) == k ==>
      s[i].timestamp - LastEmit(s[..i], k, init) >= interval
  }

  lemma {:induction false} LastEmitConcat(a: Timeline, b: Timeline, k: EventType, init: real)
    ensures LastEmit(a + b, k, init) == LastEmit(b, k, LastEmit(a, k, init))
    decreases |b|
  {
    if b != [] {
      assert (a + b)[..|a + b| - 1] == a + b[..|b| - 1];
      LastEmitConcat(a, b[..|b| - 1], k, init);
    } else {
      assert a + b == a;
    }
  }

  /** Spacing composes: `a` spaced from `init`, then `b` spaced from the last
      emission of `a`. */
  lemma {:induction false} SpacedConcat(a: Timeline, b: Timeline, k: EventType, init: real, interval: real)
    requires Spaced(a, k, init, interval)
    requires Spaced(b, k, LastEmit(a, k, init), interval)
    ensures Spaced(a + b, k, init, interval)
  {
    forall i | 0 <= i < |a + b| && Kind((a + b)[i].payload) == k
      ensures (a + b)[i].timestamp - LastEmit((a + b)[..i], k, init) >= interval
    {
      if i < |a| {
        assert (a + b)[..i] == a[..i];
        assert (a + b)[i] == a[i];
      } else {
        var j := i - |a|;
        assert (a + b)[..i] == a + b[..j];
        assert (a + b)[i] == b[j];
        LastEmitConcat(a, b[..j], k, init);
      }
    }
  }

  /** Spacing composes when the first part ends its emissions of `k` at `next`. */
  lemma SpacedStep(a: Timeline, b: Timeline, k: EventType, init: real, next: real, interval: real)
    requires Spaced(a, k, init, interval) && LastEmit(a, k, init) == next
    requires Spaced(b, k, next, interval)
    ensures Spaced(a + b, k, init, interval)
  {
    SpacedConcat(a, b, k, init, interval);
  }

  /** The events of `s` not of type `k` neither count as emissions of `k` nor need spacing. */
  lemma {:induction false} SpacedOther(s: Timeline, k: EventType, init: real, interval: real)
    requires forall i :: 0 <= i < |s| ==> Kind(s[i].payload) != k
    ensures Spaced(s, k, init, interval)
    ensures LastEmit(s, k, init) == init
    decreases |s|
  {
    if s != [] {
      SpacedOther(s[..|s| - 1], k, init, interval);
    }
  }

  /** One event of type `k` at time `t` is spaced from `init` when `t - init >= interval`. */
  lemma SpacedSingle(e: TimelineEvent, k: EventType, init: real, interval: real)
    requires Kind(e.payload) == k && e.timestamp - init >= interval
    ensures Spaced([e], k, init, interval)
    ensures LastEmit([e], k, init) == e.timestamp
  {
    assert [e][..0] == [];
  }

  // ------------------------------------------------------------------ clock

  /** Seconds from the start of the file at which frame `frame` starts. */
  function FrameTime(frame: int, hop: int, sampleRate: int): (t: real)
    requires sampleRate > 0
    ensures frame == 0 ==> t == 0.0
    ensures frame >= 0 && hop >= 0 ==> t >= 0.0
  {
    (frame * hop) as real / sampleRate as real
  }

  /** The analysis settings the builders read: hop size, sample rate and the
      minimum time between two emissions of a continuous stream. */
  datatype Timing = Timing(hop: int, sampleRate: int, interval: real)
  {
    predicate Valid() { sampleRate > 0 }

    function Time(i: int): real
      requires Valid()
    {
      FrameTime(i, hop, sampleRate)
    }
  }

  /** Conversion of a real to an integer by truncation toward zero, as a C++
      `static_cast<int>` does. */
  function Trunc(r: real): (n: int)
    ensures r >= 0.0 ==> n as real <= r < n as real + 1.0
    ensures r < 0.0 ==> n as real - 1.0 < r <= n as real
  {
    if r >= 0.0 then r.Floor else -((-r).Floor)
  }

  function Abs(r: real): real {
    if r < 0.0 then -r else r
  }
}
