/** The analysis pool the passes of src/analyzer.cpp fill and the builders
    read: one optional sequence per pool key (absent when the pass that
    writes the key did not run or wrote nothing). */
module Features {
  import opened Wrappers

  type Frames = seq<real>
  type Vectors = seq<seq<real>>

  datatype Pool = Pool(
    ticks: Option<Frames>,              // rhythm.ticks
    tickConfidence: Option<Frames>,     // rhythm.confidence
    onsetTimes: Option<Frames>,         // rhythm.onsetTimes
    silenceStartFrames: Option<Frames>, // silence.startFrame
    silenceStopFrames: Option<Frames>,  // silence.stopFrame
    loudness: Option<Frames>,           // loudness.values
    energy: Option<Frames>,             // energy.values
    centroid: Option<Frames>,           // spectral.centroid
    flux: Option<Frames>,               // spectral.flux
    complexity: Option<Frames>,         // spectral.complexity
    contrast: Option<Vectors>,          // spectral.contrast
    rolloff: Option<Frames>,            // spectral.rolloff
    hfc: Option<Frames>,                // spectral.hfc
    mfcc: Option<Vectors>,              // spectral.mfcc
    melBands: Option<Vectors>,          // bands.mel
    barkBands: Option<Vectors>,         // bands.bark
    erbBands: Option<Vectors>,          // bands.erb
    hpcp: Option<Vectors>,              // tonal.hpcp
    key: Option<seq<string>>,           // tonal.key
    scale: Option<seq<string>>,         // tonal.scale
    keyStrength: Option<Frames>,        // tonal.keyStrength
    chords: Option<seq<string>>,        // tonal.chords
    chordStrength: Option<Frames>,      // tonal.chordStrength
    dissonance: Option<Frames>,         // tonal.dissonance
    inharmonicity: Option<Frames>,      // tonal.inharmonicity
    pitch: Option<Frames>,              // pitch.values
    pitchConfidence: Option<Frames>,    // pitch.confidence
    melody: Option<Vectors>)            // melody.pitch
}
