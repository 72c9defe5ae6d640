/** The tonal builder of src/analyzer.cpp (`build_tonal_events`): chroma,
    the single key event, chord changes, dissonance and inharmonicity. */
module Tonal {
  import opened Wrappers
  import opened Events
  import opened Envelopes
  import opened Features
  import opened Throttling

  function Last<T>(s: seq<T>): T
    requires |s| > 0
  {
    s[|s| - 1]
  }

  // ------------------------------------------------------------------ key

  /** The key event: the key algorithm reports once for the whole file, so at
      most one event, at time zero, with the last key, the last scale (empty
      when there is none) and the last strength (zero when there is none). */
  function KeyEvents(pool: Pool, filter: EventFilter): Timeline {
    if KeyChange !in filter || pool.key.None? || pool.scale.None? || |pool.key.value| == 0 then []
    else
      var scales := pool.scale.value;
      var strengths := if pool.keyStrength.None? then [] else pool.keyStrength.value;
      [TimelineEvent(0.0, KeyChangeMsg(
        Last(pool.key.value),
        if |scales| == 0 then "" else Last(scales),
        if |strengths| == 0 then 0.0 else Last(strengths)))]
  }

  /** There is a key event exactly when KEY_CHANGE is enabled and the pool holds
      a nonempty key list and a scale list; it reports the final key, the final
      scale (empty when the list is) and the final strength (zero when there is
      no strength list or it is empty). */
  lemma KeyEventFacts(pool: Pool, filter: EventFilter)
    ensures var s := KeyEvents(pool, filter);
      |s| <= 1
      && (|s| == 1 <==> KeyChange in filter && pool.key.Some? && pool.scale.Some? && |pool.key.value| > 0)
      && (|s| == 1 ==> s[0].timestamp == 0.0 && s[0].payload.KeyChangeMsg?
                        && s[0].payload.key == pool.key.value[|pool.key.value| - 1]
                        && s[0].payload.scale == (if |pool.scale.value| == 0 then "" else pool.scale.value[|pool.scale.value| - 1])
                        && s[0].payload.keyStrength ==
                             (if pool.keyStrength.None? || |pool.keyStrength.value| == 0 then 0.0
                              else pool.keyStrength.value[|pool.keyStrength.value| - 1]))
  {
  }

  // ------------------------------------------------------------------ chords

  /** The chord loop from window `i` on, `prev` being the label last reported.
      A window whose label differs from it is reported, unless it lies past the
      end of the track, which ends the loop; repeated labels are skipped
      without looking at the time. */
  function ChordFrom(chords: seq<string>, strengths: seq<real>, c: Timing, duration: real,
                     i: nat, prev: string): Timeline
    requires c.Valid()
    decreases |chords| - i
  {
    if i >= |chords| then []
    else if chords[i] == prev then ChordFrom(chords, strengths, c, duration, i + 1, prev)
    else if c.Time(i) > duration then []
    else
      [TimelineEvent(c.Time(i), ChordChangeMsg(chords[i], if i < |strengths| then Some(strengths[i]) else None))]
      + ChordFrom(chords, strengths, c, duration, i + 1, chords[i])
  }

  /** Chord changes, starting from the empty label, when CHORD_CHANGE is
      enabled and the pool holds chords; a missing strength list counts as empty. */
  function ChordEvents(pool: Pool, filter: EventFilter, c: Timing, duration: real): Timeline
    requires c.Valid()
  {
    if ChordChange !in filter || pool.chords.None? then []
    else
      ChordFrom(pool.chords.value, if pool.chordStrength.None? then [] else pool.chordStrength.value,
                c, duration, 0, "")
  }

  method BuildChords(pool: Pool, filter: EventFilter, c: Timing, duration: real) returns (added: Timeline)
    requires c.Valid()
    ensures added == ChordEvents(pool, filter, c, duration)
  {
    added := [];
    if ChordChange !in filter || pool.chords.None? {
      return;
    }
    var chords := pool.chords.value;
    var strengths := [];
    if pool.chordStrength.Some? {
      strengths := pool.chordStrength.value;
    }
    var prev := "";
    var i := 0;
    while i < |chords|
      invariant 0 <= i <= |chords|
      invariant added + ChordFrom(chords, strengths, c, duration, i, prev)
        == ChordFrom(chords, strengths, c, duration, 0, "")
    {
      if chords[i] != prev {
        var t := c.Time(i);
        if t > duration {
          assert ChordFrom(chords, strengths, c, duration, i, prev) == [];
          assert added + [] == added;
          break;
        }
        var strength := None;
        if i < |strengths| {
          strength := Some(strengths[i]);
        }
        var step := [TimelineEvent(t, ChordChangeMsg(chords[i], strength))];
        assert ChordFrom(chords, strengths, c, duration, i, prev)
          == step + ChordFrom(chords, strengths, c, duration, i + 1, chords[i]);
        AppendAssoc(added, step, ChordFrom(chords, strengths, c, duration, i + 1, chords[i]));
        added := added + step;
        prev := chords[i];
      } else {
        assert ChordFrom(chords, strengths, c, duration, i, prev)
          == ChordFrom(chords, strengths, c, duration, i + 1, prev);
      }
      i := i + 1;
    }
  }

  /** The label of a chord event (empty for any other event). */
  function ChordOf(e: TimelineEvent): string {
    if e.payload.ChordChangeMsg? then e.payload.chord else ""
  }

  /** Each event of `s` is a chord change whose label differs from the one
      before it, the first from `prev`. */
  predicate Alternating(s: Timeline, prev: string) {
    (forall e :: e in s ==> e.payload.ChordChangeMsg?)
    && (|s| > 0 ==> ChordOf(s[0]) != prev)
    && forall i :: 0 < i < |s| ==> ChordOf(s[i]) != ChordOf(s[i - 1])
  }

  /** An event is window `j`'s label at its frame time, within the track, with
      the window's strength exactly when there is one. */
  ghost predicate ChordAt(chords: seq<string>, strengths: seq<real>, c: Timing, duration: real,
                          i: nat, e: TimelineEvent)
    requires c.Valid()
  {
    exists j :: i <= j < |chords| && c.Time(j) <= duration
      && e == TimelineEvent(c.Time(j), ChordChangeMsg(chords[j], if j < |strengths| then Some(strengths[j]) else None))
  }

  lemma {:induction false} ChordFromAlternating(chords: seq<string>, strengths: seq<real>, c: Timing,
                                                duration: real, i: nat, prev: string)
    requires c.Valid()
    ensures Alternating(ChordFrom(chords, strengths, c, duration, i, prev), prev)
    decreases |chords| - i
  {
    if i < |chords| {
      if chords[i] == prev {
        ChordFromAlternating(chords, strengths, c, duration, i + 1, prev);
      } else if c.Time(i) <= duration {
        ChordFromAlternating(chords, strengths, c, duration, i + 1, chords[i]);
        var rest := ChordFrom(chords, strengths, c, duration, i + 1, chords[i]);
        var e := TimelineEvent(c.Time(i), ChordChangeMsg(chords[i], if i < |strengths| then Some(strengths[i]) else None));
        var s := [e] + rest;
        assert ChordFrom(chords, strengths, c, duration, i, prev) == s;
        forall k | 0 < k < |s|
          ensures ChordOf(s[k]) != ChordOf(s[k - 1])
        {
          assert s[k] == rest[k - 1];
          if k > 1 {
            assert s[k - 1] == rest[k - 2];
          }
        }
      }
    }
  }

  lemma {:induction false} ChordFromDrawn(chords: seq<string>, strengths: seq<real>, c: Timing,
                                          duration: real, i: nat, prev: string)
    requires c.Valid()
    ensures forall e :: e in ChordFrom(chords, strengths, c, duration, i, prev) ==>
      ChordAt(chords, strengths, c, duration, i, e)
    decreases |chords| - i
  {
    if i < |chords| {
      var next := if chords[i] == prev then prev else chords[i];
      if chords[i] == prev || c.Time(i) <= duration {
        ChordFromDrawn(chords, strengths, c, duration, i + 1, next);
        forall e | e in ChordFrom(chords, strengths, c, duration, i + 1, next)
          ensures ChordAt(chords, strengths, c, duration, i, e)
        {
          var j :| i + 1 <= j < |chords| && c.Time(j) <= duration
            && e == TimelineEvent(c.Time(j), ChordChangeMsg(chords[j], if j < |strengths| then Some(strengths[j]) else None));
        }
        if chords[i] != prev {
          assert ChordAt(chords, strengths, c, duration, i,
            TimelineEvent(c.Time(i), ChordChangeMsg(chords[i], if i < |strengths| then Some(strengths[i]) else None)));
        }
      }
    }
  }

  /** From frame i on, with `prev` the chord last reported before i, every
      frame j whose chord differs from the one before it (from `prev` at j == i)
      is reported, when no frame from i to j lies past the end of the track. */
  lemma {:induction false} ChordFromReports(chords: seq<string>, strengths: seq<real>, c: Timing,
                                            duration: real, i: nat, prev: string, j: nat)
    requires c.Valid() && i <= j < |chords|
    requires forall k :: i <= k <= j ==> c.Time(k) <= duration
    requires chords[j] != (if j == i then prev else chords[j - 1])
    ensures TimelineEvent(c.Time(j), ChordChangeMsg(chords[j], if j < |strengths| then Some(strengths[j]) else None))
      in ChordFrom(chords, strengths, c, duration, i, prev)
    decreases j - i
  {
    if chords[i] == prev {
      ChordFromReports(chords, strengths, c, duration, i + 1, prev, j);
    } else {
      assert c.Time(i) <= duration;
      if i < j {
        ChordFromReports(chords, strengths, c, duration, i + 1, chords[i], j);
      }
    }
  }

  /** Every change of chord is reported: the first frame whose chord is not
      "", and every later frame whose chord differs from the frame before, as
      long as CHORD_CHANGE is enabled and no frame up to it lies past the end
      of the track. */
  lemma ChordReported(pool: Pool, filter: EventFilter, c: Timing, duration: real, j: nat)
    requires c.Valid() && ChordChange in filter && pool.chords.Some? && j < |pool.chords.value|
    requires forall k :: 0 <= k <= j ==> c.Time(k) <= duration
    requires pool.chords.value[j] != (if j == 0 then "" else pool.chords.value[j - 1])
    ensures var strengths := if pool.chordStrength.None? then [] else pool.chordStrength.value;
      TimelineEvent(c.Time(j), ChordChangeMsg(pool.chords.value[j],
                                              if j < |strengths| then Some(strengths[j]) else None))
      in ChordEvents(pool, filter, c, duration)
  {
    var strengths := if pool.chordStrength.None? then [] else pool.chordStrength.value;
    ChordFromReports(pool.chords.value, strengths, c, duration, 0, "", j);
  }

  /** Chord events report label changes only: no two consecutive ones carry
      the same label, the first is not empty, and each is a window of the pool
      at its frame time within the track. */
  lemma ChordEventsFacts(pool: Pool, filter: EventFilter, c: Timing, duration: real)
    requires c.Valid()
    ensures var s := ChordEvents(pool, filter, c, duration);
      Alternating(s, "") && Gated(s, filter) && NotAfter(s, duration)
    ensures pool.chords.Some? ==>
      forall e :: e in ChordEvents(pool, filter, c, duration) ==>
        ChordAt(pool.chords.value, if pool.chordStrength.None? then [] else pool.chordStrength.value,
                c, duration, 0, e)
  {
    if ChordChange in filter && pool.chords.Some? {
      var chords := pool.chords.value;
      var strengths := if pool.chordStrength.None? then [] else pool.chordStrength.value;
      ChordFromAlternating(chords, strengths, c, duration, 0, "");
      ChordFromDrawn(chords, strengths, c, duration, 0, "");
      var s := ChordFrom(chords, strengths, c, duration, 0, "");
      forall e | e in s
        ensures Kind(e.payload) in filter && Emittable(Kind(e.payload)) && e.timestamp <= duration
      {
        var j :| 0 <= j < |chords| && c.Time(j) <= duration
          && e == TimelineEvent(c.Time(j), ChordChangeMsg(chords[j], if j < |strengths| then Some(strengths[j]) else None));
      }
    }
  }

  // ------------------------------------------------------------------ the builder

  function TonalEvents(pool: Pool, filter: EventFilter, c: Timing, duration: real): Timeline
    requires c.Valid()
  {
    VectorStream(filter, Chroma, pool.hpcp, c, duration)
    + KeyEvents(pool, filter)
    + ChordEvents(pool, filter, c, duration)
    + ScalarStream(filter, Dissonance, pool.dissonance, c, duration)
    + ScalarStream(filter, Inharmonicity, pool.inharmonicity, c, duration)
  }

  method BuildTonal(pool: Pool, filter: EventFilter, c: Timing, duration: real) returns (added: Timeline)
    requires c.Valid()
    ensures added == TonalEvents(pool, filter, c, duration)
  {
    var chroma := BuildVectorStream(filter, Chroma, pool.hpcp, c, duration);
    var key := KeyEvents(pool, filter);
    var chords := BuildChords(pool, filter, c, duration);
    var dissonance := BuildScalarStream(filter, Dissonance, pool.dissonance, c, duration);
    var inharmonicity := BuildScalarStream(filter, Inharmonicity, pool.inharmonicity, c, duration);
    added := chroma + key + chords + dissonance + inharmonicity;
  }

  /** The tonal builder emits only enabled tonal types, within a track of
      non-negative duration. */
  lemma TonalGated(pool: Pool, filter: EventFilter, c: Timing, duration: real)
    requires c.Valid() && duration >= 0.0
    ensures Gated(TonalEvents(pool, filter, c, duration), filter)
    ensures NotAfter(TonalEvents(pool, filter, c, duration), duration)
  {
    var a := VectorStream(filter, Chroma, pool.hpcp, c, duration);
    var b := KeyEvents(pool, filter);
    var d := ChordEvents(pool, filter, c, duration);
    var e := ScalarStream(filter, Dissonance, pool.dissonance, c, duration);
    var f := ScalarStream(filter, Inharmonicity, pool.inharmonicity, c, duration);
    VectorStreamFacts(filter, Chroma, pool.hpcp, c, duration);
    ChordEventsFacts(pool, filter, c, duration);
    ScalarStreamFacts(filter, Dissonance, pool.dissonance, c, duration);
    ScalarStreamFacts(filter, Inharmonicity, pool.inharmonicity, c, duration);
    GatedAppend(a, b, filter);
    GatedAppend(a + b, d, filter);
    GatedAppend(a + b + d, e, filter);
    GatedAppend(a + b + d + e, f, filter);
    NotAfterAppend(a, b, duration);
    NotAfterAppend(a + b, d, duration);
    NotAfterAppend(a + b + d, e, duration);
    NotAfterAppend(a + b + d + e, f, duration);
  }
}
