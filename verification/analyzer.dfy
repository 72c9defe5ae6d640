/** The timeline assembly of `analyze` (src/analyzer.cpp): the start event,
    the events of every builder in order, the position heartbeats and the end
    event, sorted by timestamp.

    The analysis passes are not modelled: their results are the pool, the
    measured duration and the segmentation, all parameters. */
module Analyzer {
  import opened Wrappers
  import opened Events
  import opened Envelopes
  import opened Features
  import opened Throttling
  import opened Config
  import opened Rhythm
  import opened Dynamics
  import opened Spectral
  import opened Tonal
  import opened Melodic
  import opened Segments

  /** The frame clock and throttle of a configuration. */
  function TimingOf(s: Settings): Timing {
    Timing(s.hopSize, s.sampleRate, s.continuousInterval)
  }

  // ------------------------------------------------------------------ heartbeats

  /** The `k`-th heartbeat time. */
  function Multiple(k: nat, interval: real): real {
    k as real * interval
  }

  /** The position event at time `t`. */
  function PositionAt(t: real): TimelineEvent {
    TimelineEvent(t, TrackPositionMsg(t))
  }

  /** The number of multiples `k * interval`, `k >= 1`, that lie before `duration`. */
  function HeartbeatCount(interval: real, duration: real): (n: nat)
    requires interval > 0.0
    ensures forall k: nat :: 1 <= k ==> (k <= n <==> Multiple(k, interval) < duration)
  {
    if duration <= 0.0 then
      NoMultipleBefore(interval, duration);
      0
    else
      var q := duration / interval;
      var n := if q.Floor as real == q then q.Floor - 1 else q.Floor;
      MultiplesBefore(interval, duration, q, n);
      n
  }

  lemma NoMultipleBefore(interval: real, duration: real)
    requires interval > 0.0 && duration <= 0.0
    ensures forall k: nat :: 1 <= k ==> !(Multiple(k, interval) < duration)
  {
    forall k: nat | 1 <= k
      ensures Multiple(k, interval) >= 0.0
    {
      assert k as real >= 0.0;
    }
  }

  lemma MultiplesBefore(interval: real, duration: real, q: real, n: int)
    requires interval > 0.0 && duration > 0.0 && q == duration / interval
    requires n == if q.Floor as real == q then q.Floor - 1 else q.Floor
    ensures n >= 0
    ensures forall k: nat :: 1 <= k ==> (k <= n <==> Multiple(k, interval) < duration)
  {
    assert duration == q * interval;
    assert q > 0.0;
    forall k: nat | 1 <= k
      ensures k <= n <==> Multiple(k, interval) < duration
    {
      assert Multiple(k, interval) < duration <==> k as real < q;
    }
  }

  /** The heartbeats: one position event at each `k * interval`, `k >= 1`,
      before the end of the track. With an interval that is not positive the
      loop of the source ends only when the duration is at most the interval,
      and then there are none. */
  function Heartbeats(interval: real, duration: real): Timeline
    requires interval > 0.0 || duration <= interval
  {
    if interval <= 0.0 then []
    else
      seq(HeartbeatCount(interval, duration), i requires 0 <= i => PositionAt(Multiple(i + 1, interval)))
  }

  method BuildHeartbeats(interval: real, duration: real) returns (added: Timeline)
    requires interval > 0.0 || duration <= interval
    ensures added == Heartbeats(interval, duration)
  {
    added := [];
    var t := interval;
    if interval <= 0.0 {
      return;
    }
    var n := HeartbeatCount(interval, duration);
    while t < duration
      invariant |added| <= n
      invariant t == Multiple(|added| + 1, interval)
      invariant added == Heartbeats(interval, duration)[..|added|]
      decreases n - |added|
    {
      assert |added| + 1 <= n;
      added := added + [TimelineEvent(t, TrackPositionMsg(t))];
      t := t + interval;
    }
    assert !(Multiple(|added| + 1, interval) < duration);
  }

  /** A position event is at a multiple `k * interval`, `k >= 1`, before the
      end of the track, and every such multiple has one. */
  lemma HeartbeatsExact(interval: real, duration: real)
    requires interval > 0.0
    ensures forall e :: e in Heartbeats(interval, duration) <==>
      exists k: nat :: 1 <= k && Multiple(k, interval) < duration && e == PositionAt(Multiple(k, interval))
  {
    var s := Heartbeats(interval, duration);
    forall e
      ensures e in s <==> exists k: nat :: 1 <= k && Multiple(k, interval) < duration && e == PositionAt(Multiple(k, interval))
    {
      if e in s {
        var i :| 0 <= i < |s| && s[i] == e;
        assert Multiple(i + 1, interval) < duration;
      }
      if exists k: nat :: 1 <= k && Multiple(k, interval) < duration && e == PositionAt(Multiple(k, interval)) {
        var k: nat :| 1 <= k && Multiple(k, interval) < duration && e == PositionAt(Multiple(k, interval));
        assert s[k - 1] == e;
      }
    }
  }

  // ------------------------------------------------------------------ the timeline

  /** The events of the builders, in the order `analyze` calls them. */
  function Built(s: Settings, filter: EventFilter, pool: Pool, duration: real, seg: seq<real>): Timeline
    requires s.sampleRate > 0
  {
    var c := TimingOf(s);
    Beats(pool, filter)
    + Onsets(pool, filter)
    + Silences(pool, filter, s.hopSize, s.sampleRate, duration)
    + Loudnesses(pool, filter, c, duration)
    + Energies(pool, filter, c, duration)
    + SpectralEvents(pool, filter, c, duration)
    + BandEvents(pool, filter, c, duration)
    + TonalEvents(pool, filter, c, duration)
    + Pitches(pool, filter, c, duration)
    + Melodies(pool, filter, c, duration)
    + SegmentEvents(pool, filter, seg, c, duration)
  }

  function StartEvent(s: Settings, duration: real): TimelineEvent {
    TimelineEvent(0.0, TrackStartMsg(s.inputFile, duration, s.sampleRate, 1))
  }

  function EndEvent(duration: real): TimelineEvent {
    TimelineEvent(duration, TrackEndMsg)
  }

  /** The timeline before sorting: the start event, the built events, the
      heartbeats and the end event. */
  function Unsorted(s: Settings, filter: EventFilter, pool: Pool, duration: real, seg: seq<real>): Timeline
    requires s.sampleRate > 0
    requires s.positionInterval > 0.0 || duration <= s.positionInterval
  {
    [StartEvent(s, duration)] + Built(s, filter, pool, duration, seg)
    + Heartbeats(s.positionInterval, duration) + [EndEvent(duration)]
  }

  method BuildAll(s: Settings, filter: EventFilter, pool: Pool, duration: real, seg: seq<real>)
    returns (built: Timeline)
    requires s.sampleRate > 0
    ensures built == Built(s, filter, pool, duration, seg)
  {
    var c := TimingOf(s);
    var beats := BuildBeats(pool, filter);
    var onsets := BuildOnsets(pool, filter);
    var silences := Silences(pool, filter, s.hopSize, s.sampleRate, duration);
    var loudness := BuildLoudness(pool, filter, c, duration);
    var energy := BuildEnergy(pool, filter, c, duration);
    var spectral := BuildSpectral(pool, filter, c, duration);
    var bands := BuildBands(pool, filter, c, duration);
    var tonal := BuildTonal(pool, filter, c, duration);
    var pitch := BuildPitch(pool, filter, c, duration);
    var melody := BuildMelody(pool, filter, c, duration);
    var segments := BuildSegments(pool, filter, seg, c, duration);
    built := beats + onsets + silences + loudness + energy + spectral + bands + tonal + pitch + melody + segments;
  }

  /** Timestamps never decrease along `s`. */
  predicate SortedByTime(s: Timeline) {
    forall i, j :: 0 <= i < j < |s| ==> s[i].timestamp <= s[j].timestamp
  }

  /** The analysis: assemble the timeline, then sort it by timestamp. */
  method Analyze(s: Settings, filter: EventFilter, pool: Pool, duration: real, seg: seq<real>)
    returns (timeline: Timeline)
    requires s.sampleRate > 0
    requires s.positionInterval > 0.0 || duration <= s.positionInterval
    ensures SortedByTime(timeline)
    ensures multiset(timeline) == multiset(Unsorted(s, filter, pool, duration, seg))
  {
    var built := BuildAll(s, filter, pool, duration, seg);
    var beats := BuildHeartbeats(s.positionInterval, duration);
    var all := [StartEvent(s, duration)] + built + beats + [EndEvent(duration)];
    timeline := SortByTime(all);
  }

  // ------------------------------------------------------------------ what the timeline holds

  /** The types `analyze` adds itself, whatever the filter. */
  predicate Bookkeeping(t: EventType) {
    t.TrackStart? || t.TrackPosition? || t.TrackEnd?
  }

  /** Every builder emits enabled, built types only, so the built events
      never include bookkeeping. */
  lemma {:induction false} BuiltGated(s: Settings, filter: EventFilter, pool: Pool, duration: real, seg: seq<real>)
    requires s.sampleRate > 0 && duration >= 0.0
    ensures Gated(Built(s, filter, pool, duration, seg), filter)
  {
    var c := TimingOf(s);
    var b1 := Beats(pool, filter);
    var b2 := Onsets(pool, filter);
    var b3 := Silences(pool, filter, s.hopSize, s.sampleRate, duration);
    var b4 := Loudnesses(pool, filter, c, duration);
    var b5 := Energies(pool, filter, c, duration);
    var b6 := SpectralEvents(pool, filter, c, duration);
    var b7 := BandEvents(pool, filter, c, duration);
    var b8 := TonalEvents(pool, filter, c, duration);
    var b9 := Pitches(pool, filter, c, duration);
    var b10 := Melodies(pool, filter, c, duration);
    var b11 := SegmentEvents(pool, filter, seg, c, duration);
    BeatsGated(pool, filter);
    OnsetsFacts(pool, filter);
    SilencesGated(pool, filter, s.hopSize, s.sampleRate, duration);
    LoudnessesGated(pool, filter, c, duration);
    ScalarStreamFacts(filter, Energy, pool.energy, c, duration);
    SpectralGated(pool, filter, c, duration);
    BandsGated(pool, filter, c, duration);
    TonalGated(pool, filter, c, duration);
    PitchesFacts(pool, filter, c, duration);
    MelodiesFacts(pool, filter, c, duration);
    SegmentEventsFacts(pool, filter, seg, c, duration);
    GatedAppend(b1, b2, filter);
    GatedAppend(b1 + b2, b3, filter);
    GatedAppend(b1 + b2 + b3, b4, filter);
    GatedAppend(b1 + b2 + b3 + b4, b5, filter);
    GatedAppend(b1 + b2 + b3 + b4 + b5, b6, filter);
    GatedAppend(b1 + b2 + b3 + b4 + b5 + b6, b7, filter);
    GatedAppend(b1 + b2 + b3 + b4 + b5 + b6 + b7, b8, filter);
    GatedAppend(b1 + b2 + b3 + b4 + b5 + b6 + b7 + b8, b9, filter);
    GatedAppend(b1 + b2 + b3 + b4 + b5 + b6 + b7 + b8 + b9, b10, filter);
    GatedAppend(b1 + b2 + b3 + b4 + b5 + b6 + b7 + b8 + b9 + b10, b11, filter);
  }

  /** Whatever its order, a timeline holding the events of the analysis holds
      exactly one start event, with the file name, duration, sample rate and
      one channel, exactly one end event at the duration, and besides the
      heartbeats only events of enabled types that some builder emits. */
  lemma TimelineFacts(t: Timeline, s: Settings, filter: EventFilter, pool: Pool,
                      duration: real, seg: seq<real>)
    requires s.sampleRate > 0 && duration >= 0.0
    requires s.positionInterval > 0.0 || duration <= s.positionInterval
    requires multiset(t) == multiset(Unsorted(s, filter, pool, duration, seg))
    ensures multiset(t)[StartEvent(s, duration)] == 1
    ensures multiset(t)[EndEvent(duration)] == 1
    ensures forall e :: e in t && e.payload.TrackStartMsg? ==> e == StartEvent(s, duration)
    ensures forall e :: e in t && e.payload.TrackEndMsg? ==> e == EndEvent(duration)
    ensures forall e :: e in t && !Bookkeeping(Kind(e.payload)) ==>
      Kind(e.payload) in filter && Emittable(Kind(e.payload))
  {
    BuiltGated(s, filter, pool, duration, seg);
    HeartbeatsArePositions(s.positionInterval, duration);
    Assembled(t, StartEvent(s, duration), Built(s, filter, pool, duration, seg),
              Heartbeats(s.positionInterval, duration), EndEvent(duration), filter);
  }

  lemma HeartbeatsArePositions(interval: real, duration: real)
    requires interval > 0.0 || duration <= interval
    ensures forall e :: e in Heartbeats(interval, duration) ==> e.payload.TrackPositionMsg?
  {
  }

  /** The bookkeeping facts for any timeline holding a start event, gated
      built events, position events and an end event. */
  lemma {:induction false} Assembled(t: Timeline, start: TimelineEvent, built: Timeline, beats: Timeline,
                                     end: TimelineEvent, filter: EventFilter)
    requires multiset(t) == multiset([start] + built + beats + [end])
    requires start.payload.TrackStartMsg? && end.payload.TrackEndMsg?
    requires Gated(built, filter)
    requires forall e :: e in beats ==> e.payload.TrackPositionMsg?
    ensures multiset(t)[start] == 1 && multiset(t)[end] == 1
    ensures forall e :: e in t && e.payload.TrackStartMsg? ==> e == start
    ensures forall e :: e in t && e.payload.TrackEndMsg? ==> e == end
    ensures forall e :: e in t && !Bookkeeping(Kind(e.payload)) ==>
      Kind(e.payload) in filter && Emittable(Kind(e.payload))
    ensures forall e :: e in t && e.payload.TrackPositionMsg? <==> e in beats
  {
    assert start !in built && end !in built;
    assert start !in beats && end !in beats;
    assert multiset([start] + built + beats + [end]) == multiset([start]) + multiset(built) + multiset(beats) + multiset([end]);
    forall e | e in t
      ensures e == start || e in built || e in beats || e == end
    {
      assert e in multiset(t);
    }
    forall e | e in beats
      ensures e in t
    {
      assert e in multiset(t);
    }
  }

  /** The position events of the timeline are exactly the heartbeats: one at
      each positive multiple of the interval before the end of the track. */
  lemma PositionsExact(t: Timeline, s: Settings, filter: EventFilter, pool: Pool,
                       duration: real, seg: seq<real>)
    requires s.sampleRate > 0 && duration >= 0.0 && s.positionInterval > 0.0
    requires multiset(t) == multiset(Unsorted(s, filter, pool, duration, seg))
    ensures forall e :: e in t && e.payload.TrackPositionMsg? <==>
      exists k: nat :: 1 <= k && Multiple(k, s.positionInterval) < duration
        && e == PositionAt(Multiple(k, s.positionInterval))
  {
    BuiltGated(s, filter, pool, duration, seg);
    HeartbeatsArePositions(s.positionInterval, duration);
    HeartbeatsExact(s.positionInterval, duration);
    Assembled(t, StartEvent(s, duration), Built(s, filter, pool, duration, seg),
              Heartbeats(s.positionInterval, duration), EndEvent(duration), filter);
  }

  // ------------------------------------------------------------------ sorting

  /** A sort by timestamp: insertion of each event after every event with a
      timestamp not later than its own. */
  method SortByTime(s: Timeline) returns (r: Timeline)
    ensures SortedByTime(r)
    ensures multiset(r) == multiset(s)
  {
    r := [];
    var i := 0;
    while i < |s|
      invariant 0 <= i <= |s|
      invariant SortedByTime(r)
      invariant multiset(r) == multiset(s[..i])
    {
      r := Insert(r, s[i]);
      assert s[..i + 1] == s[..i] + [s[i]];
      i := i + 1;
    }
    assert s[..i] == s;
  }

  method Insert(r: Timeline, x: TimelineEvent) returns (r': Timeline)
    requires SortedByTime(r)
    ensures SortedByTime(r')
    ensures multiset(r') == multiset(r) + multiset{x}
  {
    var k := 0;
    while k < |r| && r[k].timestamp <= x.timestamp
      invariant 0 <= k <= |r|
      invariant forall j :: 0 <= j < k ==> r[j].timestamp <= x.timestamp
    {
      k := k + 1;
    }
    r' := r[..k] + [x] + r[k..];
    assert r == r[..k] + r[k..];
    InsertedSorted(r, k, x, r');
  }

  lemma InsertedSorted(r: Timeline, k: nat, x: TimelineEvent, r': Timeline)
    requires SortedByTime(r) && k <= |r| && r' == r[..k] + [x] + r[k..]
    requires forall j :: 0 <= j < k ==> r[j].timestamp <= x.timestamp
    requires k < |r| ==> x.timestamp < r[k].timestamp
    ensures SortedByTime(r')
  {
    assert |r'| == |r| + 1;
    assert forall i :: 0 <= i < k ==> r'[i] == r[i];
    assert r'[k] == x;
    assert forall i :: k < i < |r'| ==> r'[i] == r[i - 1];
  }
}
