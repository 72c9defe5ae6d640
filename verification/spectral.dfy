/** The spectral and band builders of src/analyzer.cpp
    (`build_spectral_events`, `build_band_events`), timbre changes included. */
module Spectral {
  import opened Wrappers
  import opened Events
  import opened Envelopes
  import opened Features
  import opened Throttling

  /** The throttled spectral streams, in the order the builder emits them;
      timbre changes come after them. */
  function SpectralStreams(pool: Pool, filter: EventFilter, c: Timing, duration: real): Timeline
    requires c.Valid()
  {
    ScalarStream(filter, SpectralCentroid, pool.centroid, c, duration)
    + ScalarStream(filter, SpectralFlux, pool.flux, c, duration)
    + ScalarStream(filter, SpectralComplexity, pool.complexity, c, duration)
    + VectorStream(filter, SpectralContrast, pool.contrast, c, duration)
    + ScalarStream(filter, SpectralRolloff, pool.rolloff, c, duration)
    + ScalarStream(filter, Hfc, pool.hfc, c, duration)
    + VectorStream(filter, Mfcc, pool.mfcc, c, duration)
  }

  function SpectralEvents(pool: Pool, filter: EventFilter, c: Timing, duration: real): Timeline
    requires c.Valid()
  {
    SpectralStreams(pool, filter, c, duration) + Timbres(pool, filter, c, duration)
  }

  method BuildSpectral(pool: Pool, filter: EventFilter, c: Timing, duration: real) returns (added: Timeline)
    requires c.Valid()
    ensures added == SpectralEvents(pool, filter, c, duration)
  {
    var centroid := BuildScalarStream(filter, SpectralCentroid, pool.centroid, c, duration);
    var flux := BuildScalarStream(filter, SpectralFlux, pool.flux, c, duration);
    var complexity := BuildScalarStream(filter, SpectralComplexity, pool.complexity, c, duration);
    var contrast := BuildVectorStream(filter, SpectralContrast, pool.contrast, c, duration);
    var rolloff := BuildScalarStream(filter, SpectralRolloff, pool.rolloff, c, duration);
    var hfc := BuildScalarStream(filter, Hfc, pool.hfc, c, duration);
    var mfcc := BuildVectorStream(filter, Mfcc, pool.mfcc, c, duration);
    var timbre := BuildTimbre(pool, filter, c, duration);
    added := centroid + flux + complexity + contrast + rolloff + hfc + mfcc + timbre;
  }

  // ------------------------------------------------------------------ timbre

  /** The sum of squared differences of the first `n` coefficients. */
  function SquaredSum(a: seq<real>, b: seq<real>, n: nat): real
    requires n <= |a| && n <= |b|
  {
    if n == 0 then 0.0 else SquaredSum(a, b, n - 1) + (a[n - 1] - b[n - 1]) * (a[n - 1] - b[n - 1])
  }

  function Min(x: nat, y: nat): nat {
    if x < y then x else y
  }

  /** The squared Euclidean distance over the coefficients both vectors have. */
  function SquaredDistance(a: seq<real>, b: seq<real>): real {
    SquaredSum(a, b, Min(|a|, |b|))
  }

  /** The timbre loop from frame `i` (at least 1) on: a change wherever the
      squared distance to the previous frame exceeds 2500, that is wherever the
      distance exceeds 50. */
  function TimbreFrom(m: Vectors, c: Timing, duration: real, i: nat): Timeline
    requires c.Valid() && i >= 1
    decreases |m| - i
  {
    if i >= |m| || c.Time(i) > duration then []
    else
      var d := SquaredDistance(m[i], m[i - 1]);
      (if d > 2500.0 then [TimelineEvent(c.Time(i), TimbreChangeMsg(d))] else [])
      + TimbreFrom(m, c, duration, i + 1)
  }

  function Timbres(pool: Pool, filter: EventFilter, c: Timing, duration: real): Timeline
    requires c.Valid()
  {
    if TimbreChange !in filter || pool.mfcc.None? then [] else TimbreFrom(pool.mfcc.value, c, duration, 1)
  }

  /** The distance loop of one frame pair. */
  method Distance(a: seq<real>, b: seq<real>) returns (dist: real)
    ensures dist == SquaredDistance(a, b)
  {
    dist := 0.0;
    var n := Min(|a|, |b|);
    var j := 0;
    while j < n
      invariant 0 <= j <= n
      invariant dist == SquaredSum(a, b, j)
    {
      var d := a[j] - b[j];
      dist := dist + d * d;
      j := j + 1;
    }
  }

  method BuildTimbre(pool: Pool, filter: EventFilter, c: Timing, duration: real) returns (added: Timeline)
    requires c.Valid()
    ensures added == Timbres(pool, filter, c, duration)
  {
    added := [];
    if TimbreChange !in filter || pool.mfcc.None? {
      return;
    }
    var mfccs := pool.mfcc.value;
    var i := 1;
    while i < |mfccs|
      invariant 1 <= i
      invariant added + TimbreFrom(mfccs, c, duration, i) == TimbreFrom(mfccs, c, duration, 1)
      decreases |mfccs| - i
    {
      var t := c.Time(i);
      if t > duration {
        break;
      }
      var dist := Distance(mfccs[i], mfccs[i - 1]);
      var change := [];
      if dist > 2500.0 {
        change := [TimelineEvent(t, TimbreChangeMsg(dist))];
      }
      AppendAssoc(added, change, TimbreFrom(mfccs, c, duration, i + 1));
      added := added + change;
      i := i + 1;
    }
  }

  // ------------------------------------------------------------------ bands

  function BandEvents(pool: Pool, filter: EventFilter, c: Timing, duration: real): Timeline
    requires c.Valid()
  {
    VectorStream(filter, BandsMel, pool.melBands, c, duration)
    + VectorStream(filter, BandsBark, pool.barkBands, c, duration)
    + VectorStream(filter, BandsErb, pool.erbBands, c, duration)
  }

  method BuildBands(pool: Pool, filter: EventFilter, c: Timing, duration: real) returns (added: Timeline)
    requires c.Valid()
    ensures added == BandEvents(pool, filter, c, duration)
  {
    var mel := BuildVectorStream(filter, BandsMel, pool.melBands, c, duration);
    var bark := BuildVectorStream(filter, BandsBark, pool.barkBands, c, duration);
    var erb := BuildVectorStream(filter, BandsErb, pool.erbBands, c, duration);
    added := mel + bark + erb;
  }

  // ------------------------------------------------------------------ properties

  lemma {:induction false} SquaredSumNonNegative(a: seq<real>, b: seq<real>, n: nat)
    requires n <= |a| && n <= |b|
    ensures SquaredSum(a, b, n) >= 0.0
  {
    if n > 0 {
      SquaredSumNonNegative(a, b, n - 1);
      var d := a[n - 1] - b[n - 1];
      assert d * d >= 0.0;
    }
  }

  lemma {:induction false} SquaredSumSymmetric(a: seq<real>, b: seq<real>, n: nat)
    requires n <= |a| && n <= |b|
    ensures SquaredSum(a, b, n) == SquaredSum(b, a, n)
  {
    if n > 0 {
      SquaredSumSymmetric(a, b, n - 1);
      var d := a[n - 1] - b[n - 1];
      assert d * d == (-d) * (-d);
    }
  }

  lemma {:induction false} SquaredSumSame(a: seq<real>, n: nat)
    requires n <= |a|
    ensures SquaredSum(a, a, n) == 0.0
  {
    if n > 0 {
      SquaredSumSame(a, n - 1);
    }
  }

  /** The squared distance is a non-negative symmetric measure that is zero
      between a vector and itself. */
  lemma SquaredDistanceMeasure(a: seq<real>, b: seq<real>)
    ensures SquaredDistance(a, b) >= 0.0
    ensures SquaredDistance(a, b) == SquaredDistance(b, a)
    ensures SquaredDistance(a, a) == 0.0
  {
    SquaredSumNonNegative(a, b, Min(|a|, |b|));
    SquaredSumSymmetric(a, b, Min(|a|, |b|));
    SquaredSumSame(a, |a|);
  }

  /** A timbre change stands for a frame after the first whose squared MFCC
      distance to the previous frame exceeds 2500, and carries that distance. */
  ghost predicate TimbreAt(m: Vectors, c: Timing, duration: real, e: TimelineEvent)
    requires c.Valid()
  {
    exists j :: 1 <= j < |m| && c.Time(j) <= duration
      && e == TimelineEvent(c.Time(j), TimbreChangeMsg(SquaredDistance(m[j], m[j - 1])))
      && SquaredDistance(m[j], m[j - 1]) > 2500.0
  }

  lemma {:induction false} TimbreFromFacts(m: Vectors, c: Timing, duration: real, i: nat)
    requires c.Valid() && i >= 1
    ensures forall e :: e in TimbreFrom(m, c, duration, i) ==> TimbreAt(m, c, duration, e)
    decreases |m| - i
  {
    if i < |m| && c.Time(i) <= duration {
      TimbreFromFacts(m, c, duration, i + 1);
      var d := SquaredDistance(m[i], m[i - 1]);
      if d > 2500.0 {
        assert TimbreAt(m, c, duration, TimelineEvent(c.Time(i), TimbreChangeMsg(d)));
      }
    }
  }

  /** Timbre changes only where consecutive MFCC frames are more than 50
      apart, within the track; so two identical consecutive frames never
      make one. */
  lemma TimbresFacts(pool: Pool, filter: EventFilter, c: Timing, duration: real)
    requires c.Valid()
    ensures var s := Timbres(pool, filter, c, duration);
      Gated(s, filter) && NotAfter(s, duration)
      && forall e :: e in s ==> TimbreAt(pool.mfcc.value, c, duration, e)
  {
    if TimbreChange in filter && pool.mfcc.Some? {
      TimbreFromFacts(pool.mfcc.value, c, duration, 1);
    }
  }

  /** Conversely, every frame pair more than 50 apart whose frame (and every
      frame before it) lies within the track makes a timbre change. */
  lemma {:induction false} TimbreFromComplete(m: Vectors, c: Timing, duration: real, i: nat, j: nat)
    requires c.Valid() && 1 <= i <= j < |m|
    requires forall k :: i <= k <= j ==> c.Time(k) <= duration
    requires SquaredDistance(m[j], m[j - 1]) > 2500.0
    ensures TimelineEvent(c.Time(j), TimbreChangeMsg(SquaredDistance(m[j], m[j - 1])))
      in TimbreFrom(m, c, duration, i)
    decreases j - i
  {
    assert c.Time(i) <= duration;
    if i < j {
      TimbreFromComplete(m, c, duration, i + 1, j);
    }
  }

  /** The spectral builder emits only enabled spectral types, within the track. */
  lemma SpectralGated(pool: Pool, filter: EventFilter, c: Timing, duration: real)
    requires c.Valid()
    ensures Gated(SpectralEvents(pool, filter, c, duration), filter)
    ensures NotAfter(SpectralEvents(pool, filter, c, duration), duration)
  {
    var a := ScalarStream(filter, SpectralCentroid, pool.centroid, c, duration);
    var b := ScalarStream(filter, SpectralFlux, pool.flux, c, duration);
    var d := ScalarStream(filter, SpectralComplexity, pool.complexity, c, duration);
    var e := VectorStream(filter, SpectralContrast, pool.contrast, c, duration);
    var f := ScalarStream(filter, SpectralRolloff, pool.rolloff, c, duration);
    var g := ScalarStream(filter, Hfc, pool.hfc, c, duration);
    var h := VectorStream(filter, Mfcc, pool.mfcc, c, duration);
    var m := Timbres(pool, filter, c, duration);
    ScalarStreamFacts(filter, SpectralCentroid, pool.centroid, c, duration);
    ScalarStreamFacts(filter, SpectralFlux, pool.flux, c, duration);
    ScalarStreamFacts(filter, SpectralComplexity, pool.complexity, c, duration);
    VectorStreamFacts(filter, SpectralContrast, pool.contrast, c, duration);
    ScalarStreamFacts(filter, SpectralRolloff, pool.rolloff, c, duration);
    ScalarStreamFacts(filter, Hfc, pool.hfc, c, duration);
    VectorStreamFacts(filter, Mfcc, pool.mfcc, c, duration);
    TimbresFacts(pool, filter, c, duration);
    GatedAppend(a, b, filter);
    GatedAppend(a + b, d, filter);
    GatedAppend(a + b + d, e, filter);
    GatedAppend(a + b + d + e, f, filter);
    GatedAppend(a + b + d + e + f, g, filter);
    GatedAppend(a + b + d + e + f + g, h, filter);
    GatedAppend(a + b + d + e + f + g + h, m, filter);
    NotAfterAppend(a, b, duration);
    NotAfterAppend(a + b, d, duration);
    NotAfterAppend(a + b + d, e, duration);
    NotAfterAppend(a + b + d + e, f, duration);
    NotAfterAppend(a + b + d + e + f, g, duration);
    NotAfterAppend(a + b + d + e + f + g, h, duration);
    NotAfterAppend(a + b + d + e + f + g + h, m, duration);
  }

  /** The band builder emits only enabled band types, within the track. */
  lemma BandsGated(pool: Pool, filter: EventFilter, c: Timing, duration: real)
    requires c.Valid()
    ensures Gated(BandEvents(pool, filter, c, duration), filter)
    ensures NotAfter(BandEvents(pool, filter, c, duration), duration)
  {
    var a := VectorStream(filter, BandsMel, pool.melBands, c, duration);
    var b := VectorStream(filter, BandsBark, pool.barkBands, c, duration);
    var d := VectorStream(filter, BandsErb, pool.erbBands, c, duration);
    VectorStreamFacts(filter, BandsMel, pool.melBands, c, duration);
    VectorStreamFacts(filter, BandsBark, pool.barkBands, c, duration);
    VectorStreamFacts(filter, BandsErb, pool.erbBands, c, duration);
    GatedAppend(a, b, filter);
    GatedAppend(a + b, d, filter);
    NotAfterAppend(a, b, duration);
    NotAfterAppend(a + b, d, duration);
  }
}
