/** The event catalogue of src/events.h and src/events.cpp: the event types,
    the name table, the transport predicate, the preset filters and the
    comma-separated filter parser. */
module Events {
  import opened Wrappers

  /** The event types, in declaration order. */
  datatype EventType =
    // Transport
    | TrackStart | TrackEnd | TrackPosition | TrackAbort
    // Beat/Rhythm
    | Beat | TempoChange | Downbeat
    // Onset
    | Onset | OnsetRate | Novelty
    // Tonal
    | KeyChange | ChordChange | Chroma | Tuning | Dissonance | Inharmonicity
    // Pitch/Melody
    | Pitch | PitchChange | Melody
    // Loudness/Energy
    | Loudness | LoudnessPeak | Energy | DynamicChange
    // Silence/Gap
    | SilenceStart | SilenceEnd | Gap
    // Spectral
    | SpectralCentroid | SpectralFlux | SpectralComplexity | SpectralContrast
    | SpectralRolloff | Mfcc | TimbreChange
    // Bands
    | BandsMel | BandsBark | BandsErb | Hfc
    // Structure
    | SegmentBoundary | FadeIn | FadeOut
    // Quality
    | Click | Discontinuity | NoiseBurst | Saturation | Hum
    // Envelope/Transient
    | Envelope | Attack | Decay

  /** A filter is a set of event types: membership is unique, order is irrelevant. */
  type EventFilter = set<EventType>

  /** The comment groups of the enum declaration. */
  datatype Category =
    | TransportCat | RhythmCat | OnsetCat | TonalCat | PitchCat | LoudnessCat
    | SilenceCat | SpectralCat | BandsCat | StructureCat | QualityCat | EnvelopeCat

  /** The group an event type is declared under. */
  function CategoryOf(et: EventType): Category {
    match et
    case TrackStart | TrackEnd | TrackPosition | TrackAbort => TransportCat
    case Beat | TempoChange | Downbeat => RhythmCat
    case Onset | OnsetRate | Novelty => OnsetCat
    case KeyChange | ChordChange | Chroma | Tuning | Dissonance | Inharmonicity => TonalCat
    case Pitch | PitchChange | Melody => PitchCat
    case Loudness | LoudnessPeak | Energy | DynamicChange => LoudnessCat
    case SilenceStart | SilenceEnd | Gap => SilenceCat
    case SpectralCentroid | SpectralFlux | SpectralComplexity | SpectralContrast
      | SpectralRolloff | Mfcc | TimbreChange => SpectralCat
    case BandsMel | BandsBark | BandsErb | Hfc => BandsCat
    case SegmentBoundary | FadeIn | FadeOut => StructureCat
    case Click | Discontinuity | NoiseBurst | Saturation | Hum => QualityCat
    case Envelope | Attack | Decay => EnvelopeCat
  }

  // ---------------------------------------------------------------------------
  // Name table

  datatype Entry = Entry(kind: EventType, name: string)

  /** The name table: every event type with its lower-case dotted name, group by group. */
  function AllEntries(): seq<Entry> {
    TransportEntries() +
    RhythmEntries() +
    OnsetEntries() +
    TonalEntries() +
    PitchEntries() +
    LoudnessEntries() +
    SilenceEntries() +
    SpectralEntries() +
    BandsEntries() +
    StructureEntries() +
    QualityEntries() +
    EnvelopeEntries()
  }

  function TransportEntries(): seq<Entry> {
    [ Entry(TrackStart, "track.start"), Entry(TrackEnd, "track.end"),
      Entry(TrackPosition, "track.position"), Entry(TrackAbort, "track.abort") ]
  }

  function RhythmEntries(): seq<Entry> {
    [ Entry(Beat, "beat"), Entry(TempoChange, "tempo.change"), Entry(Downbeat, "downbeat") ]
  }

  function OnsetEntries(): seq<Entry> {
    [ Entry(Onset, "onset"), Entry(OnsetRate, "onset.rate"), Entry(Novelty, "novelty") ]
  }

  function TonalEntries(): seq<Entry> {
    [ Entry(KeyChange, "key.change"), Entry(ChordChange, "chord.change"), Entry(Chroma, "chroma"),
      Entry(Tuning, "tuning"), Entry(Dissonance, "dissonance"), Entry(Inharmonicity, "inharmonicity") ]
  }

  function PitchEntries(): seq<Entry> {
    [ Entry(Pitch, "pitch"), Entry(PitchChange, "pitch.change"), Entry(Melody, "melody") ]
  }

  function LoudnessEntries(): seq<Entry> {
    [ Entry(Loudness, "loudness"), Entry(LoudnessPeak, "loudness.peak"), Entry(Energy, "energy"),
      Entry(DynamicChange, "dynamic.change") ]
  }

  function SilenceEntries(): seq<Entry> {
    [ Entry(SilenceStart, "silence.start"), Entry(SilenceEnd, "silence.end"), Entry(Gap, "gap") ]
  }

  function SpectralEntries(): seq<Entry> {
    [ Entry(SpectralCentroid, "spectral.centroid"), Entry(SpectralFlux, "spectral.flux"),
      Entry(SpectralComplexity, "spectral.complexity"), Entry(SpectralContrast, "spectral.contrast"),
      Entry(SpectralRolloff, "spectral.rolloff"), Entry(Mfcc, "mfcc"), Entry(TimbreChange, "timbre.change") ]
  }

  function BandsEntries(): seq<Entry> {
    [ Entry(BandsMel, "bands.mel"), Entry(BandsBark, "bands.bark"), Entry(BandsErb, "bands.erb"),
      Entry(Hfc, "hfc") ]
  }

  function StructureEntries(): seq<Entry> {
    [ Entry(SegmentBoundary, "segment.boundary"), Entry(FadeIn, "fade.in"), Entry(FadeOut, "fade.out") ]
  }

  function QualityEntries(): seq<Entry> {
    [ Entry(Click, "click"), Entry(Discontinuity, "discontinuity"), Entry(NoiseBurst, "noise.burst"),
      Entry(Saturation, "saturation"), Entry(Hum, "hum") ]
  }

  function EnvelopeEntries(): seq<Entry> {
    [ Entry(Envelope, "envelope"), Entry(Attack, "attack"), Entry(Decay, "decay") ]
  }



  /** Reference spelling of each type's name, used only in proofs about the table. */
  ghost function ReferenceName(et: EventType): string {
    match et
    case TrackStart => "track.start"
    case TrackEnd => "track.end"
    case TrackPosition => "track.position"
    case TrackAbort => "track.abort"
    case Beat => "beat"
    case TempoChange => "tempo.change"
    case Downbeat => "downbeat"
    case Onset => "onset"
    case OnsetRate => "onset.rate"
    case Novelty => "novelty"
    case KeyChange => "key.change"
    case ChordChange => "chord.change"
    case Chroma => "chroma"
    case Tuning => "tuning"
    case Dissonance => "dissonance"
    case Inharmonicity => "inharmonicity"
    case Pitch => "pitch"
    case PitchChange => "pitch.change"
    case Melody => "melody"
    case Loudness => "loudness"
    case LoudnessPeak => "loudness.peak"
    case Energy => "energy"
    case DynamicChange => "dynamic.change"
    case SilenceStart => "silence.start"
    case SilenceEnd => "silence.end"
    case Gap => "gap"
    case SpectralCentroid => "spectral.centroid"
    case SpectralFlux => "spectral.flux"
    case SpectralComplexity => "spectral.complexity"
    case SpectralContrast => "spectral.contrast"
    case SpectralRolloff => "spectral.rolloff"
    case Mfcc => "mfcc"
    case TimbreChange => "timbre.change"
    case BandsMel => "bands.mel"
    case BandsBark => "bands.bark"
    case BandsErb => "bands.erb"
    case Hfc => "hfc"
    case SegmentBoundary => "segment.boundary"
    case FadeIn => "fade.in"
    case FadeOut => "fade.out"
    case Click => "click"
    case Discontinuity => "discontinuity"
    case NoiseBurst => "noise.burst"
    case Saturation => "saturation"
    case Hum => "hum"
    case Envelope => "envelope"
    case Attack => "attack"
    case Decay => "decay"
  }

  /** Reference decoder for the names, used only in proofs about the table. */
  ghost function DecodeName(s: string): Option<EventType> {
    if |s| == 3 then
      (if s == "gap" then Some(Gap) else if s == "hfc" then Some(Hfc) else if s == "hum" then Some(Hum) else None)
    else if |s| == 4 then
      (if s == "beat" then Some(Beat) else if s == "mfcc" then Some(Mfcc) else None)
    else if |s| == 5 then
      (if s == "onset" then Some(Onset) else if s == "pitch" then Some(Pitch) else if s == "click" then Some(Click) else if s == "decay" then Some(Decay) else None)
    else if |s| == 6 then
      (if s == "chroma" then Some(Chroma) else if s == "tuning" then Some(Tuning) else if s == "melody" then Some(Melody) else if s == "energy" then Some(Energy) else if s == "attack" then Some(Attack) else None)
    else if |s| == 7 then
      (if s == "novelty" then Some(Novelty) else if s == "fade.in" then Some(FadeIn) else None)
    else if |s| == 8 then
      (if s == "downbeat" then Some(Downbeat) else if s == "loudness" then Some(Loudness) else if s == "fade.out" then Some(FadeOut) else if s == "envelope" then Some(Envelope) else None)
    else if |s| == 9 then
      (if s == "track.end" then Some(TrackEnd) else if s == "bands.mel" then Some(BandsMel) else if s == "bands.erb" then Some(BandsErb) else None)
    else if |s| == 10 then
      (if s == "onset.rate" then Some(OnsetRate) else if s == "key.change" then Some(KeyChange) else if s == "dissonance" then Some(Dissonance) else if s == "bands.bark" then Some(BandsBark) else if s == "saturation" then Some(Saturation) else None)
    else if |s| == 11 then
      (if s == "track.start" then Some(TrackStart) else if s == "track.abort" then Some(TrackAbort) else if s == "silence.end" then Some(SilenceEnd) else if s == "noise.burst" then Some(NoiseBurst) else None)
    else if |s| == 12 then
      (if s == "tempo.change" then Some(TempoChange) else if s == "chord.change" then Some(ChordChange) else if s == "pitch.change" then Some(PitchChange) else None)
    else if |s| == 13 then
      (if s == "inharmonicity" then Some(Inharmonicity) else if s == "loudness.peak" then Some(LoudnessPeak) else if s == "silence.start" then Some(SilenceStart) else if s == "spectral.flux" then Some(SpectralFlux) else if s == "timbre.change" then Some(TimbreChange) else if s == "discontinuity" then Some(Discontinuity) else None)
    else if |s| == 14 then
      (if s == "track.position" then Some(TrackPosition) else if s == "dynamic.change" then Some(DynamicChange) else None)
    else if |s| == 16 then
      (if s == "spectral.rolloff" then Some(SpectralRolloff) else if s == "segment.boundary" then Some(SegmentBoundary) else None)
    else if |s| == 17 then
      (if s == "spectral.centroid" then Some(SpectralCentroid) else if s == "spectral.contrast" then Some(SpectralContrast) else None)
    else if |s| == 19 then
      (if s == "spectral.complexity" then Some(SpectralComplexity) else None)
    else None
  }
  /** Every table entry carries its type's reference name, and that name
      decodes back to the type. */
  lemma TableConsistent()
    ensures forall e :: e in AllEntries() ==>
      e.name == ReferenceName(e.kind) && DecodeName(e.name) == Some(e.kind)
  {
    TransportNamesDecode(); TransportNamesReference();
    RhythmNamesDecode(); RhythmNamesReference();
    OnsetNamesDecode(); OnsetNamesReference();
    TonalNamesDecode(); TonalNamesReference();
    PitchNamesDecode(); PitchNamesReference();
    LoudnessNamesDecode(); LoudnessNamesReference();
    SilenceNamesDecode(); SilenceNamesReference();
    SpectralNamesDecode(); SpectralNamesReference();
    BandsNamesDecode(); BandsNamesReference();
    StructureNamesDecode(); StructureNamesReference();
    QualityNamesDecode(); QualityNamesReference();
    EnvelopeNamesDecode(); EnvelopeNamesReference();
  }

  /** Every event type has an entry in the table. */
  lemma TableCovers(et: EventType)
    ensures Entry(et, ReferenceName(et)) in AllEntries()
  {
    TransportKindsCovered();
    RhythmKindsCovered();
    OnsetKindsCovered();
    TonalKindsCovered();
    PitchKindsCovered();
    LoudnessKindsCovered();
    SilenceKindsCovered();
    SpectralKindsCovered();
    BandsKindsCovered();
    StructureKindsCovered();
    QualityKindsCovered();
    EnvelopeKindsCovered();
  }

  lemma TransportNamesDecode()
    ensures forall e :: e in TransportEntries() ==> DecodeName(e.name) == Some(e.kind)
  {
    assert DecodeName("track.start") == Some(TrackStart);
    assert DecodeName("track.end") == Some(TrackEnd);
    assert DecodeName("track.position") == Some(TrackPosition);
    assert DecodeName("track.abort") == Some(TrackAbort);
  }

  lemma TransportNamesReference()
    ensures forall e :: e in TransportEntries() ==> e.name == ReferenceName(e.kind)
  {
    assert ReferenceName(TrackStart) == "track.start";
    assert ReferenceName(TrackEnd) == "track.end";
    assert ReferenceName(TrackPosition) == "track.position";
    assert ReferenceName(TrackAbort) == "track.abort";
  }

  lemma TransportKindsCovered()
    ensures forall et :: et in {TrackStart, TrackEnd, TrackPosition, TrackAbort} ==> Entry(et, ReferenceName(et)) in TransportEntries()
  {
  }

  lemma RhythmNamesDecode()
    ensures forall e :: e in RhythmEntries() ==> DecodeName(e.name) == Some(e.kind)
  {
    assert DecodeName("beat") == Some(Beat);
    assert DecodeName("tempo.change") == Some(TempoChange);
    assert DecodeName("downbeat") == Some(Downbeat);
  }

  lemma RhythmNamesReference()
    ensures forall e :: e in RhythmEntries() ==> e.name == ReferenceName(e.kind)
  {
    assert ReferenceName(Beat) == "beat";
    assert ReferenceName(TempoChange) == "tempo.change";
    assert ReferenceName(Downbeat) == "downbeat";
  }

  lemma RhythmKindsCovered()
    ensures forall et :: et in {Beat, TempoChange, Downbeat} ==> Entry(et, ReferenceName(et)) in RhythmEntries()
  {
  }

  lemma OnsetNamesDecode()
    ensures forall e :: e in OnsetEntries() ==> DecodeName(e.name) == Some(e.kind)
  {
    assert DecodeName("onset") == Some(Onset);
    assert DecodeName("onset.rate") == Some(OnsetRate);
    assert DecodeName("novelty") == Some(Novelty);
  }

  lemma OnsetNamesReference()
    ensures forall e :: e in OnsetEntries() ==> e.name == ReferenceName(e.kind)
  {
    assert ReferenceName(Onset) == "onset";
    assert ReferenceName(OnsetRate) == "onset.rate";
    assert ReferenceName(Novelty) == "novelty";
  }

  lemma OnsetKindsCovered()
    ensures forall et :: et in {Onset, OnsetRate, Novelty} ==> Entry(et, ReferenceName(et)) in OnsetEntries()
  {
  }

  lemma TonalNamesDecode()
    ensures forall e :: e in TonalEntries() ==> DecodeName(e.name) == Some(e.kind)
  {
    assert DecodeName("key.change") == Some(KeyChange);
    assert DecodeName("chord.change") == Some(ChordChange);
    assert DecodeName("chroma") == Some(Chroma);
    assert DecodeName("tuning") == Some(Tuning);
    assert DecodeName("dissonance") == Some(Dissonance);
    assert DecodeName("inharmonicity") == Some(Inharmonicity);
  }

  lemma TonalNamesReference()
    ensures forall e :: e in TonalEntries() ==> e.name == ReferenceName(e.kind)
  {
    assert ReferenceName(KeyChange) == "key.change";
    assert ReferenceName(ChordChange) == "chord.change";
    assert ReferenceName(Chroma) == "chroma";
    assert ReferenceName(Tuning) == "tuning";
    assert ReferenceName(Dissonance) == "dissonance";
    assert ReferenceName(Inharmonicity) == "inharmonicity";
  }

  lemma TonalKindsCovered()
    ensures forall et :: et in {KeyChange, ChordChange, Chroma, Tuning, Dissonance, Inharmonicity} ==> Entry(et, ReferenceName(et)) in TonalEntries()
  {
  }

  lemma PitchNamesDecode()
    ensures forall e :: e in PitchEntries() ==> DecodeName(e.name) == Some(e.kind)
  {
    assert DecodeName("pitch") == Some(Pitch);
    assert DecodeName("pitch.change") == Some(PitchChange);
    assert DecodeName("melody") == Some(Melody);
  }

  lemma PitchNamesReference()
    ensures forall e :: e in PitchEntries() ==> e.name == ReferenceName(e.kind)
  {
    assert ReferenceName(Pitch) == "pitch";
    assert ReferenceName(PitchChange) == "pitch.change";
    assert ReferenceName(Melody) == "melody";
  }

  lemma PitchKindsCovered()
    ensures forall et :: et in {Pitch, PitchChange, Melody} ==> Entry(et, ReferenceName(et)) in PitchEntries()
  {
  }

  lemma LoudnessNamesDecode()
    ensures forall e :: e in LoudnessEntries() ==> DecodeName(e.name) == Some(e.kind)
  {
    assert DecodeName("loudness") == Some(Loudness);
    assert DecodeName("loudness.peak") == Some(LoudnessPeak);
    assert DecodeName("energy") == Some(Energy);
    assert DecodeName("dynamic.change") == Some(DynamicChange);
  }

  lemma LoudnessNamesReference()
    ensures forall e :: e in LoudnessEntries() ==> e.name == ReferenceName(e.kind)
  {
    assert ReferenceName(Loudness) == "loudness";
    assert ReferenceName(LoudnessPeak) == "loudness.peak";
    assert ReferenceName(Energy) == "energy";
    assert ReferenceName(DynamicChange) == "dynamic.change";
  }

  lemma LoudnessKindsCovered()
    ensures forall et :: et in {Loudness, LoudnessPeak, Energy, DynamicChange} ==> Entry(et, ReferenceName(et)) in LoudnessEntries()
  {
  }

  lemma SilenceNamesDecode()
    ensures forall e :: e in SilenceEntries() ==> DecodeName(e.name) == Some(e.kind)
  {
    assert DecodeName("silence.start") == Some(SilenceStart);
    assert DecodeName("silence.end") == Some(SilenceEnd);
    assert DecodeName("gap") == Some(Gap);
  }

  lemma SilenceNamesReference()
    ensures forall e :: e in SilenceEntries() ==> e.name == ReferenceName(e.kind)
  {
    assert ReferenceName(SilenceStart) == "silence.start";
    assert ReferenceName(SilenceEnd) == "silence.end";
    assert ReferenceName(Gap) == "gap";
  }

  lemma SilenceKindsCovered()
    ensures forall et :: et in {SilenceStart, SilenceEnd, Gap} ==> Entry(et, ReferenceName(et)) in SilenceEntries()
  {
  }

  lemma SpectralNamesDecode()
    ensures forall e :: e in SpectralEntries() ==> DecodeName(e.name) == Some(e.kind)
  {
    assert DecodeName("spectral.centroid") == Some(SpectralCentroid);
    assert DecodeName("spectral.flux") == Some(SpectralFlux);
    assert DecodeName("spectral.complexity") == Some(SpectralComplexity);
    assert DecodeName("spectral.contrast") == Some(SpectralContrast);
    assert DecodeName("spectral.rolloff") == Some(SpectralRolloff);
    assert DecodeName("mfcc") == Some(Mfcc);
    assert DecodeName("timbre.change") == Some(TimbreChange);
  }

  lemma SpectralSpellingsA()
    ensures ReferenceName(SpectralCentroid) == "spectral.centroid"
    ensures ReferenceName(SpectralFlux) == "spectral.flux"
    ensures ReferenceName(SpectralComplexity) == "spectral.complexity"
    ensures ReferenceName(SpectralContrast) == "spectral.contrast"
  {
  }

  lemma SpectralSpellingsB()
    ensures ReferenceName(SpectralRolloff) == "spectral.rolloff"
    ensures ReferenceName(Mfcc) == "mfcc"
    ensures ReferenceName(TimbreChange) == "timbre.change"
  {
  }

  lemma SpectralNamesReference()
    ensures forall e :: e in SpectralEntries() ==> e.name == ReferenceName(e.kind)
  {
    SpectralSpellingsA();
    SpectralSpellingsB();
  }

  lemma SpectralKindsCovered()
    ensures forall et :: et in {SpectralCentroid, SpectralFlux, SpectralComplexity, SpectralContrast, SpectralRolloff, Mfcc, TimbreChange} ==> Entry(et, ReferenceName(et)) in SpectralEntries()
  {
  }

  lemma BandsNamesDecode()
    ensures forall e :: e in BandsEntries() ==> DecodeName(e.name) == Some(e.kind)
  {
    assert DecodeName("bands.mel") == Some(BandsMel);
    assert DecodeName("bands.bark") == Some(BandsBark);
    assert DecodeName("bands.erb") == Some(BandsErb);
    assert DecodeName("hfc") == Some(Hfc);
  }

  lemma BandsNamesReference()
    ensures forall e :: e in BandsEntries() ==> e.name == ReferenceName(e.kind)
  {
    assert ReferenceName(BandsMel) == "bands.mel";
    assert ReferenceName(BandsBark) == "bands.bark";
    assert ReferenceName(BandsErb) == "bands.erb";
    assert ReferenceName(Hfc) == "hfc";
  }

  lemma BandsKindsCovered()
    ensures forall et :: et in {BandsMel, BandsBark, BandsErb, Hfc} ==> Entry(et, ReferenceName(et)) in BandsEntries()
  {
  }

  lemma StructureNamesDecode()
    ensures forall e :: e in StructureEntries() ==> DecodeName(e.name) == Some(e.kind)
  {
    assert DecodeName("segment.boundary") == Some(SegmentBoundary);
    assert DecodeName("fade.in") == Some(FadeIn);
    assert DecodeName("fade.out") == Some(FadeOut);
  }

  lemma StructureNamesReference()
    ensures forall e :: e in StructureEntries() ==> e.name == ReferenceName(e.kind)
  {
    assert ReferenceName(SegmentBoundary) == "segment.boundary";
    assert ReferenceName(FadeIn) == "fade.in";
    assert ReferenceName(FadeOut) == "fade.out";
  }

  lemma StructureKindsCovered()
    ensures forall et :: et in {SegmentBoundary, FadeIn, FadeOut} ==> Entry(et, ReferenceName(et)) in StructureEntries()
  {
  }

  lemma QualityDecodeA()
    ensures DecodeName("click") == Some(Click) && DecodeName("discontinuity") == Some(Discontinuity)
  {
  }

  lemma QualityDecodeB()
    ensures DecodeName("noise.burst") == Some(NoiseBurst) && DecodeName("saturation") == Some(Saturation)
    ensures DecodeName("hum") == Some(Hum)
  {
  }

  lemma QualityNamesDecode()
    ensures forall e :: e in QualityEntries() ==> DecodeName(e.name) == Some(e.kind)
  {
    QualityDecodeA();
    QualityDecodeB();
  }

  lemma QualitySpellingsA()
    ensures ReferenceName(Click) == "click"
    ensures ReferenceName(Discontinuity) == "discontinuity"
    ensures ReferenceName(NoiseBurst) == "noise.burst"
  {
  }

  lemma QualitySpellingsB()
    ensures ReferenceName(Saturation) == "saturation"
    ensures ReferenceName(Hum) == "hum"
  {
  }

  lemma QualityNamesReference()
    ensures forall e :: e in QualityEntries() ==> e.name == ReferenceName(e.kind)
  {
    QualitySpellingsA();
    QualitySpellingsB();
  }

  lemma QualityKindsCovered()
    ensures forall et :: et in {Click, Discontinuity, NoiseBurst, Saturation, Hum} ==> Entry(et, ReferenceName(et)) in QualityEntries()
  {
  }

  lemma EnvelopeNamesDecode()
    ensures forall e :: e in EnvelopeEntries() ==> DecodeName(e.name) == Some(e.kind)
  {
    assert DecodeName("envelope") == Some(Envelope);
    assert DecodeName("attack") == Some(Attack);
    assert DecodeName("decay") == Some(Decay);
  }

  lemma EnvelopeNamesReference()
    ensures forall e :: e in EnvelopeEntries() ==> e.name == ReferenceName(e.kind)
  {
    assert ReferenceName(Envelope) == "envelope";
    assert ReferenceName(Attack) == "attack";
    assert ReferenceName(Decay) == "decay";
  }

  lemma EnvelopeKindsCovered()
    ensures forall et :: et in {Envelope, Attack, Decay} ==> Entry(et, ReferenceName(et)) in EnvelopeEntries()
  {
  }

  // ---------------------------------------------------------------------------
  // Lookups in both directions

  /** The type a table pairs with a name; the last such entry wins, as when a
      map is filled entry by entry. None when no entry carries the name. */
  function FindType(table: seq<Entry>, name: string): (r: Option<EventType>)
    ensures r.Some? ==> Entry(r.value, name) in table
    ensures r.None? ==> forall e :: e in table ==> e.name != name
  {
    if table == [] then None
    else if table[|table| - 1].name == name then Some(table[|table| - 1].kind)
    else FindType(table[..|table| - 1], name)
  }

  /** The name a table pairs with a type, the last such entry winning; "unknown"
      when no entry carries the type. */
  function FindName(table: seq<Entry>, et: EventType): (r: string)
    ensures r == "unknown" || Entry(et, r) in table
    ensures (forall e :: e in table ==> e.kind != et) ==> r == "unknown"
  {
    if table == [] then "unknown"
    else if table[|table| - 1].kind == et then table[|table| - 1].name
    else FindName(table[..|table| - 1], et)
  }

  /** When every entry carrying the name agrees on the type, that type is found. */
  lemma {:induction false} FindTypeUnique(table: seq<Entry>, name: string, et: EventType)
    requires Entry(et, name) in table
    requires forall e :: e in table && e.name == name ==> e.kind == et
    ensures FindType(table, name) == Some(et)
  {
    var last := table[|table| - 1];
    if last.name != name {
      assert Entry(et, name) in table[..|table| - 1];
      FindTypeUnique(table[..|table| - 1], name, et);
    }
  }

  /** When every entry carrying the type agrees on the name, that name is found. */
  lemma {:induction false} FindNameUnique(table: seq<Entry>, et: EventType, name: string)
    requires Entry(et, name) in table
    requires forall e :: e in table && e.kind == et ==> e.name == name
    ensures FindName(table, et) == name
  {
    var last := table[|table| - 1];
    if last.kind != et {
      assert Entry(et, name) in table[..|table| - 1];
      FindNameUnique(table[..|table| - 1], et, name);
    }
  }

  /** The name-to-type lookup over the whole table. */
  function TypeOfName(name: string): Option<EventType> {
    FindType(AllEntries(), name)
  }

  /** The name of an event type over the whole table; "unknown" for a type it lacks. */
  function EventTypeName(et: EventType): string {
    FindName(AllEntries(), et)
  }

  /** Every type has its table name. */
  lemma {:induction false} NameIsTableName(et: EventType)
    ensures EventTypeName(et) == ReferenceName(et)
  {
    TableCovers(et);
    TableConsistent();
    FindNameUnique(AllEntries(), et, ReferenceName(et));
  }

  /** A type's name looks up to that type again. */
  lemma {:induction false} NameRoundTrip(et: EventType)
    ensures TypeOfName(EventTypeName(et)) == Some(et)
  {
    NameIsTableName(et);
    TableCovers(et);
    TableConsistent();
    FindTypeUnique(AllEntries(), ReferenceName(et), et);
  }

  /** A name that looks up to a type is that type's name. */
  lemma {:induction false} TypeRoundTrip(name: string)
    ensures TypeOfName(name).Some? ==> EventTypeName(TypeOfName(name).value) == name
  {
    if TypeOfName(name).Some? {
      NameIsTableName(TypeOfName(name).value);
      TableConsistent();
    }
  }

  /** A name the reference decoder rejects is not in the table. */
  lemma {:induction false} UndecodableIsUnknown(name: string)
    requires DecodeName(name) == None
    ensures TypeOfName(name) == None
  {
    TableConsistent();
  }

  /** No type falls back to "unknown". */
  lemma {:induction false} NameNotUnknown(et: EventType)
    ensures EventTypeName(et) != "unknown"
  {
    NameRoundTrip(et);
    UnknownIsNoName();
  }

  /** No two types share a name. */
  lemma {:induction false} NamesDistinct(a: EventType, b: EventType)
    ensures EventTypeName(a) == EventTypeName(b) ==> a == b
  {
    NameRoundTrip(a);
    NameRoundTrip(b);
  }

  /** The fallback "unknown" is not a name in the table. */
  lemma {:induction false} UnknownIsNoName()
    ensures TypeOfName("unknown") == None
  {
    assert "unknown"[0] == 'u';
    UndecodableIsUnknown("unknown");
  }

  /** What the name map holds: exactly the table's names, each mapped to its type. */
  ghost predicate IsNameMap(names: map<string, EventType>) {
    forall n {:trigger TypeOfName(n)} :: (n in names <==> TypeOfName(n).Some?) && (n in names ==> TypeOfName(n) == Some(names[n]))
  }

  /** The name map maps every type's name to that type. */
  lemma {:induction false} NameMapHasName(names: map<string, EventType>, et: EventType)
    requires IsNameMap(names)
    ensures EventTypeName(et) in names && names[EventTypeName(et)] == et
    ensures EventTypeName(et) != []
  {
    NameRoundTrip(et);
    UndecodableIsUnknown([]);
  }

  /** There is only one name map. */
  lemma NameMapUnique(a: map<string, EventType>, b: map<string, EventType>)
    requires IsNameMap(a) && IsNameMap(b)
    ensures a == b
  {
    forall n
      ensures (n in a <==> n in b) && (n in a ==> a[n] == b[n])
    {
      var found := TypeOfName(n);
    }
  }

  /** Fills a map from a table entry by entry, so a later entry overrides an
      earlier one with the same name. */
  method FillNameMap(table: seq<Entry>) returns (names: map<string, EventType>)
    ensures forall n :: n in names <==> FindType(table, n).Some?
    ensures forall n :: n in names ==> FindType(table, n) == Some(names[n])
  {
    names := map[];
    var i := 0;
    while i < |table|
      invariant 0 <= i <= |table|
      invariant forall n :: n in names <==> FindType(table[..i], n).Some?
      invariant forall n :: n in names ==> FindType(table[..i], n) == Some(names[n])
    {
      assert table[..i + 1][..i] == table[..i];
      names := names[table[i].name := table[i].kind];
      i := i + 1;
    }
    assert table[..i] == table;
  }

  /** The name-to-type map the parser consults. */
  method EventNameMap() returns (names: map<string, EventType>)
    ensures IsNameMap(names)
  {
    names := FillNameMap(AllEntries());
  }

  // ---------------------------------------------------------------------------
  // Transport types and presets

  /** The four lifecycle types that the analyzer emits on its own. */
  predicate IsTransport(et: EventType) {
    et == TrackStart || et == TrackEnd || et == TrackPosition || et == TrackAbort
  }

  /** The transport types are exactly the transport group of the declaration. */
  lemma TransportIsItsGroup(et: EventType)
    ensures IsTransport(et) <==> CategoryOf(et) == TransportCat
  {
  }

  /** The default filter: beats and onsets. */
  function DefaultEvents(): EventFilter {
    {Beat, Onset}
  }

  /** The "primary" preset: rhythm, onsets, silence and loudness. */
  function Tier1Events(): EventFilter {
    {Beat, Onset, SilenceStart, SilenceEnd, Gap, Loudness, LoudnessPeak, Energy, DynamicChange}
  }

  /** The types the second tier adds to the first. */
  function Tier2Additions(): EventFilter {
    {KeyChange, ChordChange, Chroma, Tuning, Dissonance, Inharmonicity,
     Pitch, PitchChange, Melody, TempoChange, Downbeat, OnsetRate, Novelty,
     SpectralCentroid, SpectralFlux, SpectralComplexity, SpectralContrast, SpectralRolloff,
     Mfcc, TimbreChange, BandsMel, BandsBark, BandsErb, Hfc,
     SegmentBoundary, FadeIn, FadeOut}
  }

  /** The second tier: the first tier plus tonal, pitch, spectral and structure types. */
  function Tier2Events(): EventFilter {
    Tier1Events() + Tier2Additions()
  }

  /** The non-transport types a table lists, collected entry by entry. */
  method CollectNonTransport(table: seq<Entry>) returns (filter: EventFilter)
    ensures forall e :: e in table && !IsTransport(e.kind) ==> e.kind in filter
    ensures forall et :: et in filter ==> !IsTransport(et) && exists e :: e in table && e.kind == et
  {
    filter := {};
    var i := 0;
    while i < |table|
      invariant 0 <= i <= |table|
      invariant forall j :: 0 <= j < i && !IsTransport(table[j].kind) ==> table[j].kind in filter
      invariant forall et :: et in filter ==> !IsTransport(et) && exists j :: 0 <= j < i && table[j].kind == et
    {
      if !IsTransport(table[i].kind) {
        filter := filter + {table[i].kind};
      }
      i := i + 1;
    }
  }

  /** The "all" preset, collected from the table: every type that is not a transport type. */
  method AllEvents() returns (filter: EventFilter)
    ensures forall et :: et in filter <==> !IsTransport(et)
  {
    filter := CollectNonTransport(AllEntries());
    forall et | !IsTransport(et)
      ensures et in filter
    {
      TableCovers(et);
    }
  }

  /** The "all" preset, as AllEvents collects it, contains the second tier. */
  lemma Tier2InAll(all: EventFilter)
    requires forall et :: et in all <==> !IsTransport(et)
    ensures Tier2Events() <= all
  {
    PresetsOmitTransport();
  }

  /** The presets grow strictly from one to the next. */
  lemma PresetsNest()
    ensures DefaultEvents() < Tier1Events() < Tier2Events()
    ensures Tier1Events() !! Tier2Additions()
  {
    assert SilenceStart in Tier1Events() - DefaultEvents();
    assert KeyChange in Tier2Events() - Tier1Events();
  }

  /** The first tier holds no transport type. */
  lemma Tier1OmitsTransport()
    ensures forall et :: et in Tier1Events() ==> !IsTransport(et)
  {
  }

  /** The second tier's additions hold no transport type. */
  lemma AdditionsOmitTransport()
    ensures forall et :: et in Tier2Additions() ==> !IsTransport(et)
  {
  }

  /** No preset holds a transport type. */
  lemma PresetsOmitTransport()
    ensures forall et :: et in Tier2Events() ==> !IsTransport(et)
  {
    Tier1OmitsTransport();
    AdditionsOmitTransport();
  }

  /** The quality and envelope groups are reachable only through "all". */
  lemma QualityOnlyInAll()
    ensures Click !in Tier2Events() && Envelope !in Tier2Events()
  {
  }

  // ---------------------------------------------------------------------------
  // Filter parsing

  predicate IsBlank(c: char) {
    c == ' ' || c == '\t'
  }

  /** Drops leading spaces and tabs. */
  function TrimLeft(s: string): string {
    if s != [] && IsBlank(s[0]) then TrimLeft(s[1..]) else s
  }

  /** Drops trailing spaces and tabs. */
  function TrimRight(s: string): string {
    if s != [] && IsBlank(s[|s| - 1]) then TrimRight(s[..|s| - 1]) else s
  }

  /** A token with its surrounding spaces and tabs removed; other whitespace is kept. */
  function Trim(s: string): string {
    TrimRight(TrimLeft(s))
  }

  lemma {:induction false} TrimLeftDrops(s: string)
    ensures |TrimLeft(s)| <= |s| && TrimLeft(s) == s[|s| - |TrimLeft(s)|..]
    ensures forall i :: 0 <= i < |s| - |TrimLeft(s)| ==> IsBlank(s[i])
    ensures TrimLeft(s) == [] || !IsBlank(TrimLeft(s)[0])
    decreases |s|
  {
    if s != [] && IsBlank(s[0]) {
      TrimLeftDrops(s[1..]);
    }
  }

  lemma {:induction false} TrimRightDrops(s: string)
    ensures |TrimRight(s)| <= |s| && TrimRight(s) == s[..|TrimRight(s)|]
    ensures forall i :: |TrimRight(s)| <= i < |s| ==> IsBlank(s[i])
    ensures TrimRight(s) == [] || !IsBlank(TrimRight(s)[|TrimRight(s)| - 1])
    decreases |s|
  {
    if s != [] && IsBlank(s[|s| - 1]) {
      TrimRightDrops(s[..|s| - 1]);
    }
  }

  /** Trimming leaves a slice of the token that is empty exactly when the token is
      all blanks, and otherwise starts and ends with a character that is not blank. */
  lemma {:induction false} TrimSpec(s: string)
    ensures exists lo, hi :: 0 <= lo <= hi <= |s| && Trim(s) == s[lo..hi]
    ensures Trim(s) == [] <==> forall i :: 0 <= i < |s| ==> IsBlank(s[i])
    ensures Trim(s) != [] ==> !IsBlank(Trim(s)[0]) && !IsBlank(Trim(s)[|Trim(s)| - 1])
  {
    var l := TrimLeft(s);
    TrimLeftDrops(s);
    TrimRightDrops(l);
    var r := TrimRight(l);
    assert r == s[|s| - |l|..|s| - |l| + |r|];
    if r == [] {
      assert l == [];
    } else {
      assert !IsBlank(l[0]);
      assert l[0] == r[0];
    }
  }

  /** A token without surrounding blanks is its own trim. */
  lemma TrimKeeps(s: string)
    requires s != [] && !IsBlank(s[0]) && !IsBlank(s[|s| - 1])
    ensures Trim(s) == s
  {
  }

  /** The comma-separated fields of a string, empty ones included. */
  function Fields(s: string): (f: seq<string>)
    ensures |f| >= 1
    decreases |s|
  {
    if s == [] then [[]]
    else if s[0] == ',' then [[]] + Fields(s[1..])
    else
      var rest := Fields(s[1..]);
      [[s[0]] + rest[0]] + rest[1..]
  }

  /** The tokens a comma-delimited line reader yields: the fields, except that an
      empty last field (an empty input, or a trailing comma) produces no token. */
  function Tokens(s: string): seq<string> {
    var f := Fields(s);
    if f[|f| - 1] == [] then f[..|f| - 1] else f
  }

  /** A warning printed while parsing a filter. */
  datatype Warning = UnknownName(token: string) | TransportName(token: string)

  /** What the parser does with one token: skip it silently (it is blank), warn
      that it is unknown, warn that it names a transport type, or accept its type. */
  datatype Verdict = Skip | Unknown(token: string) | Refused(token: string) | Accept(kind: EventType)

  /** Trims the token, looks its name up in `names` and refuses transport types. */
  function Classify(names: map<string, EventType>, token: string): (v: Verdict)
    ensures v.Accept? ==> !IsTransport(v.kind)
  {
    var t := Trim(token);
    if t == [] then Skip
    else if t !in names then Unknown(t)
    else if IsTransport(names[t]) then Refused(t)
    else Accept(names[t])
  }

  /** The set of types the tokens select. */
  function Selected(names: map<string, EventType>, tokens: seq<string>): EventFilter {
    if tokens == [] then {}
    else Selected(names, tokens[..|tokens| - 1]) + KindFor(names, tokens[|tokens| - 1])
  }

  function KindFor(names: map<string, EventType>, token: string): EventFilter {
    match Classify(names, token)
    case Accept(et) => {et}
    case _ => {}
  }

  /** The warnings the tokens produce, in order. */
  function WarningsOf(names: map<string, EventType>, tokens: seq<string>): seq<Warning> {
    if tokens == [] then []
    else WarningsOf(names, tokens[..|tokens| - 1]) + WarningFor(names, tokens[|tokens| - 1])
  }

  function WarningFor(names: map<string, EventType>, token: string): seq<Warning> {
    match Classify(names, token)
    case Unknown(t) => [UnknownName(t)]
    case Refused(t) => [TransportName(t)]
    case _ => []
  }

  lemma SelectedSnoc(names: map<string, EventType>, tokens: seq<string>, t: string)
    ensures Selected(names, tokens + [t]) == Selected(names, tokens) + KindFor(names, t)
  {
    assert (tokens + [t])[..|tokens|] == tokens;
  }

  lemma WarningsSnoc(names: map<string, EventType>, tokens: seq<string>, t: string)
    ensures WarningsOf(names, tokens + [t]) == WarningsOf(names, tokens) + WarningFor(names, t)
  {
    assert (tokens + [t])[..|tokens|] == tokens;
  }

  /** One token of the parse loop: adding its type and its warnings extends
      the results over the tokens before it to the results over one more. */
  lemma ParseStep(names: map<string, EventType>, tokens: seq<string>, i: nat,
                  filter: EventFilter, warnings: seq<Warning>)
    requires i < |tokens|
    requires filter == Selected(names, tokens[..i]) + KindFor(names, tokens[i])
    requires warnings == WarningsOf(names, tokens[..i]) + WarningFor(names, tokens[i])
    ensures filter == Selected(names, tokens[..i + 1])
    ensures warnings == WarningsOf(names, tokens[..i + 1])
  {
    assert tokens[..i + 1] == tokens[..i] + [tokens[i]];
    SelectedSnoc(names, tokens[..i], tokens[i]);
    WarningsSnoc(names, tokens[..i], tokens[i]);
  }

  /** Transport types are never selected. */
  lemma {:induction false} SelectedOmitsTransport(names: map<string, EventType>, tokens: seq<string>)
    ensures forall et :: et in Selected(names, tokens) ==> !IsTransport(et)
    decreases |tokens|
  {
    if tokens != [] {
      SelectedOmitsTransport(names, tokens[..|tokens| - 1]);
    }
  }

  /** The filter a comma-separated list denotes under a name map. */
  function ParseWith(names: map<string, EventType>, csv: string): EventFilter {
    Selected(names, Tokens(csv))
  }

  /** Parses a comma-separated list of event names into a filter, collecting a
      warning for every unknown name and every transport name it skips. The name
      map is the one EventNameMap builds. */
  method ParseEventFilter(names: map<string, EventType>, csv: string) returns (filter: EventFilter, warnings: seq<Warning>)
    ensures filter == ParseWith(names, csv)
    ensures warnings == WarningsOf(names, Tokens(csv))
    ensures forall et :: et in filter ==> !IsTransport(et)
  {
    var tokens := Tokens(csv);
    filter := {};
    warnings := [];
    var i := 0;
    while i < |tokens|
      invariant 0 <= i <= |tokens|
      invariant filter == Selected(names, tokens[..i])
      invariant warnings == WarningsOf(names, tokens[..i])
    {
      var token := tokens[i];
      match Classify(names, token) {
        case Skip =>
          assert warnings + [] == warnings;
        case Unknown(t) =>
          warnings := warnings + [UnknownName(t)];
        case Refused(t) =>
          warnings := warnings + [TransportName(t)];
        case Accept(et) =>
          assert warnings + [] == warnings;
          filter := filter + {et};
      }
      ParseStep(names, tokens, i, filter, warnings);
      i := i + 1;
    }
    assert tokens[..i] == tokens;
    SelectedOmitsTransport(names, tokens);
  }

  // ---------------------------------------------------------------------------
  // Properties of the parser

  /** A leading comma ends an empty first field. */
  lemma FieldsComma(s: string)
    ensures Fields([','] + s) == [[]] + Fields(s)
  {
    assert ([','] + s)[1..] == s;
  }

  /** Any other leading character joins the first field of the rest. */
  lemma FieldsChar(x: char, s: string)
    requires x != ','
    ensures Fields([x] + s) == [[x] + Fields(s)[0]] + Fields(s)[1..]
  {
    assert ([x] + s)[1..] == s;
  }

  /** Joining a character onto the first of two runs of fields. */
  lemma FieldsJoin(x: char, rest: seq<string>, after: seq<string>)
    requires |rest| >= 1
    ensures [[x] + (rest + after)[0]] + (rest + after)[1..] == ([[x] + rest[0]] + rest[1..]) + after
  {
    assert (rest + after)[0] == rest[0];
    assert (rest + after)[1..] == rest[1..] + after;
  }

  /** The step of `FieldsSplit`: a character in front of `a` joins the same
      field on both sides of the split. */
  lemma FieldsSplitStep(x: char, tail: string, b: string)
    requires Fields(tail + [','] + b) == Fields(tail) + Fields(b)
    ensures Fields([x] + tail + [','] + b) == Fields([x] + tail) + Fields(b)
  {
    assert [x] + tail + [','] + b == [x] + (tail + [','] + b);
    if x == ',' {
      FieldsSplitComma(tail + [','] + b, tail, Fields(b));
    } else {
      FieldsSplitChar(x, tail + [','] + b, tail, Fields(b));
    }
  }

  /** A leading comma keeps the split of the rest. */
  lemma FieldsSplitComma(s: string, tail: string, after: seq<string>)
    requires Fields(s) == Fields(tail) + after
    ensures Fields([','] + s) == Fields([','] + tail) + after
  {
    FieldsComma(s);
    FieldsComma(tail);
  }

  /** Any other leading character joins the first field on both sides of the split. */
  lemma FieldsSplitChar(x: char, s: string, tail: string, after: seq<string>)
    requires x != ',' && Fields(s) == Fields(tail) + after
    ensures Fields([x] + s) == Fields([x] + tail) + after
  {
    FieldsChar(x, s);
    FieldsChar(x, tail);
    FieldsJoin(x, Fields(tail), after);
  }


  /** Splitting at a comma: the fields of a + "," + b are those of a, then those of b. */
  lemma {:induction false} FieldsSplit(a: string, b: string)
    ensures Fields(a + [','] + b) == Fields(a) + Fields(b)
    decreases |a|
  {
    if a == [] {
      assert a + [','] + b == [','] + b;
      FieldsComma(b);
    } else {
      assert a == [a[0]] + a[1..];
      FieldsSplit(a[1..], b);
      FieldsSplitStep(a[0], a[1..], b);
    }
  }

  /** A string without a comma is a single field. */
  lemma {:induction false} FieldsNoComma(s: string)
    requires ',' !in s
    ensures Fields(s) == [s]
    decreases |s|
  {
    if s != [] {
      FieldsNoComma(s[1..]);
      assert [s[0]] + s[1..] == s;
    }
  }

  /** The empty field the reader drops would have been skipped anyway. */
  lemma TokensAsFields(names: map<string, EventType>, s: string)
    ensures Selected(names, Tokens(s)) == Selected(names, Fields(s))
    ensures WarningsOf(names, Tokens(s)) == WarningsOf(names, Fields(s))
  {
    var f := Fields(s);
    if f[|f| - 1] == [] {
      assert Classify(names, []) == Skip;
    }
  }

  lemma {:induction false} SelectedConcat(names: map<string, EventType>, a: seq<string>, b: seq<string>)
    ensures Selected(names, a + b) == Selected(names, a) + Selected(names, b)
    decreases |b|
  {
    if b == [] {
      assert a + b == a;
    } else {
      var b' := b[..|b| - 1];
      assert (a + b)[..|a + b| - 1] == a + b';
      SelectedConcat(names, a, b');
    }
  }

  /** A type is selected exactly when some token is accepted as that type. */
  lemma SelectedMembers(names: map<string, EventType>, tokens: seq<string>, et: EventType)
    ensures et in Selected(names, tokens) <==>
      exists i :: 0 <= i < |tokens| && Classify(names, tokens[i]) == Accept(et)
  {
    if et in Selected(names, tokens) {
      SelectedFromToken(names, tokens, et);
    }
    forall i | 0 <= i < |tokens| && Classify(names, tokens[i]) == Accept(et)
      ensures et in Selected(names, tokens)
    {
      TokenSelects(names, tokens, i, et);
    }
  }

  /** A selected type comes from some token accepted as that type. */
  lemma {:induction false} SelectedFromToken(names: map<string, EventType>, tokens: seq<string>, et: EventType)
    requires et in Selected(names, tokens)
    ensures exists i :: 0 <= i < |tokens| && Classify(names, tokens[i]) == Accept(et)
    decreases |tokens|
  {
    var init := tokens[..|tokens| - 1];
    if et in Selected(names, init) {
      SelectedFromToken(names, init, et);
      var i :| 0 <= i < |init| && Classify(names, init[i]) == Accept(et);
      assert tokens[i] == init[i];
    } else {
      assert et in KindFor(names, tokens[|tokens| - 1]);
      assert Classify(names, tokens[|tokens| - 1]) == Accept(et);
    }
  }

  /** A token accepted as a type selects it. */
  lemma {:induction false} TokenSelects(names: map<string, EventType>, tokens: seq<string>, i: nat, et: EventType)
    requires i < |tokens| && Classify(names, tokens[i]) == Accept(et)
    ensures et in Selected(names, tokens)
    decreases |tokens|
  {
    if i == |tokens| - 1 {
      assert et in KindFor(names, tokens[i]);
    } else {
      var init := tokens[..|tokens| - 1];
      assert init[i] == tokens[i];
      TokenSelects(names, init, i, et);
    }
  }

  /** The filter of a joined list is the union of the filters of its parts, so
      order and repetition do not matter. */
  lemma ParseUnion(names: map<string, EventType>, a: string, b: string)
    ensures ParseWith(names, a + "," + b) == ParseWith(names, a) + ParseWith(names, b)
    ensures ParseWith(names, a + "," + b) == ParseWith(names, b + "," + a)
    ensures ParseWith(names, a + "," + a) == ParseWith(names, a)
  {
    forall x: string, y: string
      ensures ParseWith(names, x + "," + y) == ParseWith(names, x) + ParseWith(names, y)
    {
      TokensAsFields(names, x + "," + y);
      TokensAsFields(names, x);
      TokensAsFields(names, y);
      FieldsSplit(x, y);
      SelectedConcat(names, Fields(x), Fields(y));
    }
  }

  /** The empty list selects nothing and warns about nothing. */
  lemma ParseEmpty(names: map<string, EventType>)
    ensures ParseWith(names, "") == {}
    ensures WarningsOf(names, Tokens("")) == []
  {
  }

  /** A list without a comma is a single item: it selects what that item selects
      and warns as that item warns. */
  lemma SingleItem(names: map<string, EventType>, s: string)
    requires ',' !in s
    ensures ParseWith(names, s) == KindFor(names, s)
    ensures WarningsOf(names, Tokens(s)) == WarningFor(names, s)
  {
    FieldsNoComma(s);
    TokensAsFields(names, s);
    assert Classify(names, []) == Skip;
  }

  /** An item whose trimmed text is a table name selects that type, or is refused
      with a warning when the type is a transport type. */
  lemma {:induction false} ItemNamingType(names: map<string, EventType>, token: string, et: EventType)
    requires IsNameMap(names)
    requires Trim(token) == EventTypeName(et)
    ensures !IsTransport(et) ==> Classify(names, token) == Accept(et)
    ensures IsTransport(et) ==> Classify(names, token) == Refused(EventTypeName(et))
  {
    NameMapHasName(names, et);
  }

  /** An item whose trimmed text is not empty and not a table name is skipped with
      an "unknown" warning naming the trimmed text. */
  lemma {:induction false} ItemNamingNothing(names: map<string, EventType>, token: string)
    requires IsNameMap(names)
    requires Trim(token) != [] && DecodeName(Trim(token)) == None
    ensures Classify(names, token) == Unknown(Trim(token))
    ensures KindFor(names, token) == {}
  {
    UndecodableIsUnknown(Trim(token));
  }
}
