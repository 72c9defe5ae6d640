/** Which analysis passes, and which branches of the spectral pass, `analyze`
    and `run_spectral_pass` set up for a filter (src/analyzer.cpp).

    The Essentia operators themselves are not modelled: the plan is the set of
    operators wired into the networks that are run. */
module Plan {
  import opened Wrappers
  import opened Events

  datatype Operator =
    // whole-file passes of `analyze`
    | BeatTracker | DurationOnly | OnsetDetector | SilenceDetector | LoudnessEnergy
    | SpectralChain | MelodyExtractor
    // branches of `run_spectral_pass`
    | CentroidBranch | MfccBranch | MelBranch | BarkBranch | ErbBranch
    | ComplexityBranch | ContrastBranch | FluxBranch | RollOffBranch | HfcBranch
    | PeaksBranch | HpcpBranch | KeyBranch | ChordsBranch | PeaksToNowhere
    | FilteredPeaksBranch | DissonanceBranch | InharmonicityBranch | PitchBranch
    | SpectrumToNowhere

  /** The groups of types `analyze` and `run_spectral_pass` test the filter for. */
  datatype Group =
    | RhythmGroup | OnsetGroup | SilenceGroup | LoudnessGroup | SpectralGroup
    | MfccGroup | HpcpGroup | DissonanceGroup | PitchGroup

  /** Membership of a type in a group. */
  predicate InGroup(t: EventType, g: Group) {
    match g
    case RhythmGroup => t.Beat? || t.TempoChange? || t.Downbeat?
    case OnsetGroup => t.Onset? || t.OnsetRate? || t.Novelty?
    case SilenceGroup => t.SilenceStart? || t.SilenceEnd? || t.Gap?
    case LoudnessGroup => t.Loudness? || t.LoudnessPeak? || t.Energy? || t.DynamicChange?
    case SpectralGroup =>
      t.SpectralCentroid? || t.SpectralFlux? || t.SpectralComplexity? || t.SpectralContrast?
      || t.SpectralRolloff? || t.Mfcc? || t.TimbreChange? || t.BandsMel? || t.BandsBark?
      || t.BandsErb? || t.Hfc? || t.Chroma? || t.KeyChange? || t.ChordChange? || t.Tuning?
      || t.Dissonance? || t.Inharmonicity? || t.Pitch? || t.PitchChange? || t.SegmentBoundary?
    case MfccGroup => t.Mfcc? || t.TimbreChange? || t.SegmentBoundary?
    case HpcpGroup => t.Chroma? || t.KeyChange? || t.ChordChange? || t.Tuning?
    case DissonanceGroup => t.Dissonance? || t.Inharmonicity?
    case PitchGroup => t.Pitch? || t.PitchChange?
  }

  /** Whether the filter holds any type of the group. */
  predicate NeedsAny(filter: EventFilter, g: Group) {
    exists t :: t in filter && InGroup(t, g)
  }

  /** Whether some branch of the spectral pass reads the spectrum. */
  predicate SpectrumConsumed(filter: EventFilter) {
    NeedsAny(filter, MfccGroup) || BandsMel in filter || BandsBark in filter || BandsErb in filter
    || SpectralComplexity in filter || SpectralContrast in filter || SpectralFlux in filter
    || SpectralRolloff in filter || Hfc in filter
    || WantsPeaks(filter) || NeedsAny(filter, PitchGroup) || NeedsAny(filter, DissonanceGroup)
  }

  /** Whether the spectral peaks are computed: for the chromagram or for
      dissonance and inharmonicity. */
  predicate WantsPeaks(filter: EventFilter) {
    NeedsAny(filter, HpcpGroup) || NeedsAny(filter, DissonanceGroup)
  }

  /** The plan: whether `analyze` runs operator `op` for the filter. The passes
      are decided in `analyze`, the branches in `run_spectral_pass`, which runs
      only with the spectral pass. */
  predicate InPlan(filter: EventFilter, op: Operator) {
    var spectral := NeedsAny(filter, SpectralGroup);
    var wantHpcp := NeedsAny(filter, HpcpGroup);
    var wantDissInharm := NeedsAny(filter, DissonanceGroup);
    var wantPeaks := WantsPeaks(filter);
    match op
    case BeatTracker => NeedsAny(filter, RhythmGroup)
    case DurationOnly => !NeedsAny(filter, RhythmGroup)
    case OnsetDetector => NeedsAny(filter, OnsetGroup)
    case SilenceDetector => NeedsAny(filter, SilenceGroup)
    case LoudnessEnergy => NeedsAny(filter, LoudnessGroup)
    case SpectralChain => spectral
    case MelodyExtractor => Melody in filter
    case CentroidBranch => spectral && SpectralCentroid in filter
    case MfccBranch => spectral && NeedsAny(filter, MfccGroup)
    case MelBranch => spectral && BandsMel in filter
    case BarkBranch => spectral && BandsBark in filter
    case ErbBranch => spectral && BandsErb in filter
    case ComplexityBranch => spectral && SpectralComplexity in filter
    case ContrastBranch => spectral && SpectralContrast in filter
    case FluxBranch => spectral && SpectralFlux in filter
    case RollOffBranch => spectral && SpectralRolloff in filter
    case HfcBranch => spectral && Hfc in filter
    case PeaksBranch => spectral && wantPeaks
    case HpcpBranch => spectral && wantPeaks && wantHpcp
    case KeyBranch => spectral && wantPeaks && wantHpcp && KeyChange in filter
    case ChordsBranch => spectral && wantPeaks && wantHpcp && ChordChange in filter
    case PeaksToNowhere => spectral && wantPeaks && !wantHpcp
    case FilteredPeaksBranch => spectral && wantPeaks && wantDissInharm
    case DissonanceBranch => spectral && wantPeaks && wantDissInharm && Dissonance in filter
    case InharmonicityBranch => spectral && wantPeaks && wantDissInharm && Inharmonicity in filter
    case PitchBranch => spectral && NeedsAny(filter, PitchGroup)
    case SpectrumToNowhere => spectral && !SpectrumConsumed(filter)
  }

  /** Whether `op` is a branch of the spectral pass. */
  predicate IsSpectralBranch(op: Operator) {
    !(op.BeatTracker? || op.DurationOnly? || op.OnsetDetector? || op.SilenceDetector?
      || op.LoudnessEnergy? || op.SpectralChain? || op.MelodyExtractor?)
  }

  /** Wanting more types keeps every group wanted. */
  lemma NeedsAnyGrows(filter: EventFilter, wider: EventFilter, g: Group)
    requires filter <= wider && NeedsAny(filter, g)
    ensures NeedsAny(wider, g)
  {
    var t :| t in filter && InGroup(t, g);
    assert t in wider;
  }

  /** Wanting more types never drops a pass of `analyze`, and it can only turn
      the loader-only pass off. */
  lemma {:induction false} PassesMonotone(filter: EventFilter, wider: EventFilter, op: Operator)
    requires filter <= wider && !IsSpectralBranch(op) && !op.DurationOnly?
    ensures InPlan(filter, op) ==> InPlan(wider, op)
    ensures InPlan(wider, DurationOnly) ==> InPlan(filter, DurationOnly)
  {
    forall g | NeedsAny(filter, g)
      ensures NeedsAny(wider, g)
    {
      NeedsAnyGrows(filter, wider, g);
    }
  }

  /** Wanting more types never drops a branch of the spectral pass, except the
      two sinks, which only ever lose their inputs' last reader. */
  lemma {:induction false} BranchesMonotone(filter: EventFilter, wider: EventFilter, op: Operator)
    requires filter <= wider && IsSpectralBranch(op) && !op.PeaksToNowhere? && !op.SpectrumToNowhere?
    ensures InPlan(filter, op) ==> InPlan(wider, op)
  {
    forall g | NeedsAny(filter, g)
      ensures NeedsAny(wider, g)
    {
      NeedsAnyGrows(filter, wider, g);
    }
  }

  /** With no type wanted, `analyze` runs only the loader-only pass. */
  lemma {:induction false} EmptyFilterPlan(op: Operator)
    ensures InPlan({}, op) <==> op.DurationOnly?
  {
    assert forall g :: !NeedsAny({}, g);
  }

  /** A wanted spectral type other than the centroid reads the spectrum. */
  lemma ReaderConsumes(filter: EventFilter, t: EventType)
    requires t in filter && InGroup(t, SpectralGroup) && t != SpectralCentroid
    ensures SpectrumConsumed(filter)
  {
    if InGroup(t, MfccGroup) {
      assert NeedsAny(filter, MfccGroup);
    } else if InGroup(t, HpcpGroup) {
      assert NeedsAny(filter, HpcpGroup);
    } else if InGroup(t, DissonanceGroup) {
      assert NeedsAny(filter, DissonanceGroup);
    } else if InGroup(t, PitchGroup) {
      assert NeedsAny(filter, PitchGroup);
    }
  }

  /** With the centroid as the only spectral type, no branch reads the spectrum. */
  lemma NoReader(filter: EventFilter)
    requires forall t :: t in filter && InGroup(t, SpectralGroup) ==> t == SpectralCentroid
    ensures !SpectrumConsumed(filter)
  {
    forall g, t | g != SpectralGroup && !g.RhythmGroup? && !g.OnsetGroup? && !g.SilenceGroup?
      && !g.LoudnessGroup? && InGroup(t, g)
      ensures InGroup(t, SpectralGroup) && t != SpectralCentroid
    {
    }
  }

  /** The spectrum goes nowhere exactly when the centroid, which is computed
      from the frames rather than the spectrum, is the only spectral type wanted. */
  lemma {:induction false} SpectrumSinkIff(filter: EventFilter)
    ensures InPlan(filter, SpectrumToNowhere) <==>
      SpectralCentroid in filter
      && forall t :: t in filter && InGroup(t, SpectralGroup) ==> t == SpectralCentroid
  {
    if forall t :: t in filter && InGroup(t, SpectralGroup) ==> t == SpectralCentroid {
      NoReader(filter);
      if SpectralCentroid in filter {
        assert InGroup(SpectralCentroid, SpectralGroup);
      }
    } else {
      var t :| t in filter && InGroup(t, SpectralGroup) && t != SpectralCentroid;
      ReaderConsumes(filter, t);
    }
  }
}
