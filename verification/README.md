# tracks — a verified model of the event analyzer, emitter and Windows player

**tracks** analyses an audio file and sends a timeline of musical events
(beats, onsets, silences, loudness, spectral, tonal and pitch features) as UDP
multicast datagrams, in real time, while the file plays somewhere else. The
native Windows player (`winplay`) listens for the transport events. It opens,
starts and stops the track, and draws a progress line on the console.

This project models the deterministic core of that system in Dafny and proves
what the code promises:

- **Event catalogue** (`events.dfy`):
  - the 48-entry name table and its two lookups, which are mutual inverses;
  - the transport predicate and the four nested preset filters;
  - `parse_event_filter`: a comma-separated list, trimmed, with unknown and transport names skipped with a warning.
- **Configuration** (`config.dfy`):
  - YAML values override the defaults, and command-line options override YAML;
  - the filter precedence `--all` > `--primary` > `--events` > default;
  - the early returns of `load_config`.
- **Analysis plan** (`plan.dfy`): which passes and which branches of the spectral pass `analyze` runs for a filter.
- **Timeline builders** (`rhythm`, `dynamics`, `throttle`, `spectral`, `tonal`, `melodic`, `segments`):
  - each `build_*_events` loop is a method proved equal to a specification function;
  - the events it may emit are stated as lemmas on that function: gating by the filter, staying within the track, spacing of throttled streams, and the derived peak, jump, timbre, chord, key, pitch-change and boundary events.
- **Assembly** (`analyzer.dfy`): the start event, the builders, the position heartbeats and the end event, then the sort by timestamp.
- **Emitter** (`emitter.dfy`):
  - the real-time replay loop, with its 100 ms polling sleep and the cooperative interrupt flag;
  - the clock and flag are a `Clock` object whose interrupt instant is fixed in advance;
  - the multicast socket is a `Transport` object that records what it sends.
- **Windows player**:
  - `path_translator.dfy`: WSL path to Windows path rewriting;
  - `console_status.dfy`: time formatting, the progress bar, and the progress-line protocol of `ConsoleStatus`;
  - `winplay_main.dfy`: `basename_of`, the argument loop, and the per-datagram state machine of the receive loop.

The analyzer's foreign inputs are parameters:

- the feature pool that the Essentia networks fill (`features.dfy`: a record of optional frame sequences);
- the file duration;
- the output of the segmenter.

The player's foreign inputs are parameters too:

- the datagrams it receives;
- the audio player's answers (`Reply`);
- the turn at which Ctrl-C arrives.

Timestamps are exact reals, with `frame_to_time(i, hop, sr) = i*hop/sr` for `sr > 0`.

## Model

| member | source | states |
|---|---|---|
| Events.TableConsistent | src/events.cpp:12-76 | every entry of the table pairs a type with that type's reference name |
| Events.TableCovers | src/events.cpp:12-76 | every event type has its entry in the table |
| Events.FindType | src/events.cpp:78-86 | a found type is paired with the name in the table; no result means no entry has the name |
| Events.FindName | src/events.cpp:88-98 | the result is a name paired with the type, or "unknown" — always "unknown" when the type has no entry |
| Events.FindTypeUnique | src/events.cpp:78-86 | a name with a single type in the table is looked up to that type |
| Events.FindNameUnique | src/events.cpp:88-98 | a type with a single name in the table is looked up to that name |
| Events.NameIsTableName | src/events.cpp:88-98 | every type's name is its table name |
| Events.NameNotUnknown | src/events.cpp:88-98 | no type's name is the fallback "unknown" |
| Events.NameRoundTrip | src/events.cpp:78-98 | looking up the name of a type gives back the type |
| Events.TypeRoundTrip | src/events.cpp:78-98 | a name that decodes gives back that name from its type |
| Events.UndecodableIsUnknown | src/events.cpp:78-86 | a name outside the table has no type |
| Events.NamesDistinct | src/events.cpp:12-76 | two types with the same name are the same type |
| Events.UnknownIsNoName | src/events.cpp:88-98 | "unknown" does not decode to any type |
| Events.NameMapHasName | src/events.cpp:78-86 | the name map holds every type's name, mapped to that type |
| Events.NameMapUnique | src/events.cpp:78-86 | the name map is uniquely determined |
| Events.FillNameMap | src/events.cpp:80-84 | the map filled from a table holds exactly the names the table lookup finds, with the found types |
| Events.EventNameMap | src/events.cpp:78-86 | the static name map is the name map of the table |
| Events.TransportIsItsGroup | src/events.cpp:100-105 | a type is transport exactly when it is in the transport category |
| Events.CollectNonTransport | src/events.cpp:163-171 | the filter holds every non-transport type of the table and only those |
| Events.AllEvents | src/events.cpp:163-171 | `all_events` holds exactly the non-transport types |
| Events.Tier2InAll | src/events.cpp:125-171 | the "all" preset contains tier 2, completing default ⊂ tier 1 ⊂ tier 2 ⊆ all |
| Events.PresetsNest | src/events.cpp:107-161 | default ⊂ tier 1 ⊂ tier 2, and tier 2 adds types disjoint from tier 1 |
| Events.Tier1OmitsTransport | src/events.cpp:111-123 | the primary preset holds no transport type |
| Events.AdditionsOmitTransport | src/events.cpp:125-161 | the types the extended preset adds hold no transport type |
| Events.PresetsOmitTransport | src/events.cpp:111-161 | no preset holds a transport type |
| Events.QualityOnlyInAll | src/events.cpp:125-171 | the quality and envelope types are only in `all_events`, not in tier 2 |
| Events.TrimLeftDrops | src/events.cpp:181 | left trimming drops a prefix of blanks and stops at a non-blank |
| Events.TrimRightDrops | src/events.cpp:182 | right trimming drops a suffix of blanks and stops at a non-blank |
| Events.TrimSpec | src/events.cpp:181-184 | a trimmed token is a slice of the token; it is empty iff the token is all blanks; otherwise it begins and ends with a non-blank |
| Events.TrimKeeps | src/events.cpp:181-184 | a token without outer blanks is unchanged |
| Events.Fields | src/events.cpp:179 | splitting on ',' gives at least one field |
| Events.Classify | src/events.cpp:186-196 | an accepted token is never a transport type |
| Events.SelectedSnoc | src/events.cpp:177-197 | one more token adds exactly that token's type |
| Events.WarningsSnoc | src/events.cpp:177-197 | one more token adds exactly that token's warning |
| Events.SelectedOmitsTransport | src/events.cpp:191-196 | no transport type is ever selected |
| Events.ParseEventFilter | src/events.cpp:173-199 | the loop's filter is the parse of the list, its warnings those of the tokens, and it holds no transport type |
| Events.FieldsSplit | src/events.cpp:179 | the fields of `a,b` are those of `a` followed by those of `b` |
| Events.FieldsNoComma | src/events.cpp:179 | text without a comma is one field |
| Events.TokensAsFields | src/events.cpp:179-184 | skipping empty tokens changes neither selection nor warnings |
| Events.SelectedConcat | src/events.cpp:173-199 | the selection of two token lists is the union of their selections |
| Events.SelectedMembers | src/events.cpp:186-196 | a type is selected iff some token trims to its name and it is not transport |
| Events.ParseUnion | src/events.cpp:173-199 | parsing `a,b` is the union of the parses; order and duplicates do not matter |
| Events.ParseEmpty | src/events.cpp:173-199 | the empty list parses to the empty set with no warning |
| Events.SingleItem | src/events.cpp:173-199 | a list of one item parses to that item's type, with its warning |
| Events.ItemNamingType | src/events.cpp:186-196 | a token naming a type is accepted, or refused when the type is transport |
| Events.ItemNamingNothing | src/events.cpp:186-190 | a token naming nothing is unknown and selects nothing |
| Config.SettingsByField | src/config.h:9-31 | settings that agree on every field are equal |
| Config.MergeByField | src/config.cpp:110-120 | after merging, each field is the override when given, else unchanged |
| Config.Combine | src/config.cpp:101-120 | the combination of two override sets takes each field from the later one when it gives it |
| Config.MergeLaws | src/config.cpp:101-120 | no overrides change nothing; two merges are one merge of the combination; merging twice is merging once |
| Config.YamlOverrides | src/config.cpp:16-35 | YAML never sets the input file, and an absent `network`, `analysis`, `transport` or `events` section sets none of its fields |
| Config.DefaultFilesInOrder | src/config.cpp:101-107 | without `--config`, both default files are read in order, the second overriding the first; the input file is untouched |
| Config.CommandLineWins | src/config.cpp:109-120 | a command-line field wins; an absent one keeps the YAML or default value |
| Config.InputOnlyFromCommandLine | src/config.cpp:110 | the input file comes only from the command line |
| Config.NamedNonTransportIsAll | src/config.cpp:123-124 | the non-transport types named in the map are exactly the non-transport types |
| Config.FilterPrecedence | src/config.cpp:122-135 | `--all` beats `--primary` and `--events`; `--primary` beats `--events`; with none of them the filter is {beat, onset} |
| Config.ChosenFilterSound | src/config.cpp:122-135 | a chosen filter is nonempty and holds no transport type; `--all` gives all non-transport types; no filter exactly when `--events` parses to nothing |
| Config.Configuration.constructor | src/config.h:9-31 | a new configuration holds the declared defaults and enables no event type |
| Config.Configuration.LoadYaml | src/config.cpp:12-36 | the settings after loading are the file's overrides applied to the old settings; an unreadable file changes nothing |
| Config.Configuration.ApplyOverrides | src/config.cpp:109-120 | the settings become the merge of the old settings and the overrides |
| Config.SelectFilter | src/config.cpp:122-135 | the filter picked equals the precedence choice for the event name map; a picked filter is nonempty and holds no transport type |
| Config.Configuration.LoadConfig | src/config.cpp:55-143 | help, list-events and a parse error return false with nothing changed; otherwise the settings are the merge and the filter the precedence choice; success iff a filter was chosen and there is an input file |
| Envelopes.GatedAppend | src/analyzer.cpp:1056-1066 | two gated timelines append to a gated timeline |
| Envelopes.NotAfterAppend | src/analyzer.cpp:1056-1066 | two timelines within the track append to one within the track |
| Envelopes.LastEmitConcat | src/analyzer.cpp:576-600 | the last emission after `a + b` is the last emission of `b` started from that of `a` |
| Envelopes.SpacedConcat | src/analyzer.cpp:576-600 | spacing composes across an append |
| Envelopes.SpacedOther | src/analyzer.cpp:576-600 | events of other types neither need spacing nor count as emissions |
| Envelopes.SpacedSingle | src/analyzer.cpp:576-600 | one event far enough from the last emission is spaced and becomes the last emission |
| Envelopes.FrameTime | src/analyzer.cpp:22-24 | frame 0 is at time 0, and a non-negative frame at a non-negative hop is never before 0 |
| Envelopes.Trunc | src/analyzer.cpp:964 | truncation toward zero lies within one of the real, on the side of zero |
| Plan.PassesMonotone | src/analyzer.cpp:989-1038 | wanting more types never drops a pass, and can only turn the loader-only pass off |
| Plan.BranchesMonotone | src/analyzer.cpp:147-363 | wanting more types never drops a branch of the spectral pass other than the two sinks |
| Plan.EmptyFilterPlan | src/analyzer.cpp:989-1038 | with no type wanted, only the loader-only pass runs |
| Plan.ReaderConsumes | src/analyzer.cpp:280-363 | any wanted spectral type other than the centroid reads the spectrum |
| Plan.NoReader | src/analyzer.cpp:280-363 | with the centroid as the only spectral type, no branch reads the spectrum |
| Plan.SpectrumSinkIff | src/analyzer.cpp:357-363 | the spectrum goes to the sink iff the centroid is the only spectral type wanted |
| Rhythm.BuildBeats | src/analyzer.cpp:395-416 | the loop appends exactly the beat events of the pool |
| Rhythm.BeatsFacts | src/analyzer.cpp:395-416 | one beat per tick, in order, at the tick; a confidence exactly where the tracker gave one |
| Rhythm.BeatsGated | src/analyzer.cpp:395-416 | beats are emitted only when enabled |
| Rhythm.BuildOnsets | src/analyzer.cpp:418-431 | the loop appends exactly the onset events of the pool |
| Rhythm.OnsetsFacts | src/analyzer.cpp:418-431 | one onset of strength 1 per onset time, in order, only when enabled |
| Rhythm.LeadingSilenceFacts | src/analyzer.cpp:451-467 | the leading start, end and gap appear iff the start frame is positive and more than 50 ms in, each only when enabled |
| Rhythm.TrailingSilenceFacts | src/analyzer.cpp:469-485 | the trailing start, end and gap appear iff the sound stops more than 50 ms before the end, each when enabled; the gap exceeds 50 ms |
| Rhythm.SilencesUseLastFrames | src/analyzer.cpp:441-448 | only the last start and stop frames matter |
| Rhythm.SilencesGated | src/analyzer.cpp:433-489 | silence events are emitted only when enabled |
| Rhythm.SilenceAroundGated | src/analyzer.cpp:451-485 | the leading and trailing events together are emitted only when enabled |
| Throttling.BuildThrottled | src/analyzer.cpp:576-626 | the sampling loop appends exactly the throttled stream |
| Throttling.ThrottleSpaced | src/analyzer.cpp:576-600 | consecutive samples are at least the interval apart |
| Throttling.ThrottleDrawn | src/analyzer.cpp:576-600 | every sample is a frame within the track, carrying that frame's value |
| Throttling.ThrottleFirst | src/analyzer.cpp:576-600 | frame 0 is always sampled, because the last emission starts one interval before 0 |
| Throttling.ThrottledSpaced | src/analyzer.cpp:576-626 | a throttled stream is spaced from its first emission on |
| Throttling.ThrottledWithin | src/analyzer.cpp:576-626 | a throttled stream holds only its own type, within the track |
| Throttling.BuildScalarStream | src/analyzer.cpp:576-600 | the scalar builder appends exactly its stream |
| Throttling.BuildVectorStream | src/analyzer.cpp:602-626 | the vector builder appends exactly its stream |
| Throttling.ScalarStreamFacts | src/analyzer.cpp:576-600 | a scalar stream is enabled, within the track and spaced |
| Throttling.VectorStreamFacts | src/analyzer.cpp:602-626 | a vector stream is enabled, within the track and spaced |
| Dynamics.MaxOf | src/analyzer.cpp:506 | the maximum is a frame value, and no frame exceeds it |
| Dynamics.BuildLoudness | src/analyzer.cpp:491-546 | the loudness loop appends exactly the loudness events |
| Dynamics.LoudnessFrame | src/analyzer.cpp:509-540 | one frame's loudness, peak and dynamic-change events |
| Dynamics.FrameGated | src/analyzer.cpp:509-540 | one frame's events are of enabled types and all at the frame's time |
| Dynamics.FrameKinds | src/analyzer.cpp:521-540 | one frame's peak and dynamic change come only from their own tests |
| Dynamics.LoudnessFromGated | src/analyzer.cpp:509-540 | the loudness loop emits only enabled types |
| Dynamics.LoudnessFromWithin | src/analyzer.cpp:509-511 | the loudness loop stops at the end of the track |
| Dynamics.LoudnessFromPeaks | src/analyzer.cpp:521-529 | a peak is an interior strict local maximum reaching 90% of the loudest frame |
| Dynamics.LoudnessFromJumps | src/analyzer.cpp:531-540 | a dynamic change is a jump from the previous frame above a positive 30% of the loudest frame |
| Dynamics.LoudnessFromSpaced | src/analyzer.cpp:502-519 | loudness samples are spaced by the interval |
| Dynamics.LoudnessesGated | src/analyzer.cpp:491-546 | loudness events are enabled, within the track, and only from loudness values |
| Dynamics.LoudnessesSpaced | src/analyzer.cpp:502-519 | loudness samples are spaced from the first one on |
| Dynamics.LoudnessFirst | src/analyzer.cpp:502-519 | with LOUDNESS enabled, a nonempty loudness list and a non-negative duration, the first loudness event is frame 0's value at time 0 |
| Dynamics.LoudnessesPeaks | src/analyzer.cpp:521-529 | every peak event is a 90% strict local maximum; the converse is Dynamics.PeakReported |
| Dynamics.LoudnessFromReports | src/analyzer.cpp:509-541 | an event that frame j reports, whatever the time of the last loudness sample, the loop reports from every earlier frame i, when no frame from i to j is past the end |
| Dynamics.PeakReported | src/analyzer.cpp:521-529 | with LOUDNESS_PEAK enabled, every interior strict local maximum reaching 90% of the loudest frame, with no frame up to it past the end, is reported as a peak carrying its loudness |
| Dynamics.LoudnessesJumps | src/analyzer.cpp:531-540 | every dynamic change is a jump above 30% of the maximum; the converse is Dynamics.JumpReported |
| Dynamics.JumpReported | src/analyzer.cpp:531-540 | with DYNAMIC_CHANGE enabled and a positive maximum, every frame differing from the one before by more than 30% of the maximum, with no frame up to it past the end, is reported with that difference |
| Dynamics.BuildEnergy | src/analyzer.cpp:548-574 | the energy builder appends exactly the throttled energy stream |
| Spectral.BuildSpectral | src/analyzer.cpp:628-692 | the builder appends exactly the enabled spectral streams |
| Spectral.Distance | src/analyzer.cpp:698-703 | the loop computes the squared distance over the common prefix |
| Spectral.BuildTimbre | src/analyzer.cpp:693-712 | the timbre loop appends exactly the timbre events |
| Spectral.BuildBands | src/analyzer.cpp:721-748 | the builder appends exactly the enabled band streams |
| Spectral.SquaredSumNonNegative | src/analyzer.cpp:698-703 | a sum of squares is not negative |
| Spectral.SquaredSumSymmetric | src/analyzer.cpp:698-703 | the sum does not depend on the order of the two vectors |
| Spectral.SquaredSumSame | src/analyzer.cpp:698-703 | a vector is at distance 0 from itself |
| Spectral.SquaredDistanceMeasure | src/analyzer.cpp:698-707 | the squared distance is non-negative, symmetric and 0 on equal vectors |
| Spectral.TimbreFromFacts | src/analyzer.cpp:693-712 | a timbre change is a frame within the track more than 50 away (squared: 2500) from the previous frame |
| Spectral.TimbresFacts | src/analyzer.cpp:693-712 | timbre events are enabled, within the track, and each is such a change |
| Spectral.TimbreFromComplete | src/analyzer.cpp:693-712 | every frame within the track farther than 50 from its predecessor does produce a timbre change |
| Spectral.SpectralGated | src/analyzer.cpp:628-719 | spectral events are enabled and within the track |
| Spectral.BandsGated | src/analyzer.cpp:721-748 | band events are enabled and within the track |
| Tonal.KeyEventFacts | src/analyzer.cpp:763-782 | at most one key event, at time 0; present iff enabled with a nonempty key list and a scale list; it reports the last key, the last scale or "" when there is none, and the last strength or 0 when there is none |
| Tonal.BuildChords | src/analyzer.cpp:785-812 | the chord loop appends exactly the chord events |
| Tonal.ChordFromAlternating | src/analyzer.cpp:793-809 | each reported chord differs from the one before it |
| Tonal.ChordFromDrawn | src/analyzer.cpp:795-809 | each reported chord is a window of the pool at its frame time within the track |
| Tonal.ChordEventsFacts | src/analyzer.cpp:785-812 | chord events alternate starting from "", are enabled and within the track, and each is a window of the pool; the converse is Tonal.ChordReported |
| Tonal.ChordFromReports | src/analyzer.cpp:795-809 | from frame i on, with the last reported chord given, every frame within the track whose chord differs from the one before it is reported with its strength |
| Tonal.ChordReported | src/analyzer.cpp:785-812 | with CHORD_CHANGE enabled, every frame whose chord differs from the previous frame (from "" at frame 0), with no frame up to it past the end, is reported with its chord and its strength, if any |
| Tonal.BuildTonal | src/analyzer.cpp:750-829 | the tonal builder appends exactly the tonal events |
| Tonal.TonalGated | src/analyzer.cpp:750-829 | tonal events are enabled and within the track |
| Melodic.BuildPitch | src/analyzer.cpp:833-888 | the pitch loop appends exactly the pitch events |
| Melodic.PitchFrame | src/analyzer.cpp:851-884 | one frame's pitch sample and pitch change, and whether the sample was emitted |
| Melodic.PitchFromDrawn | src/analyzer.cpp:851-884 | each event is a sample with confidence above 0.3, or a change with confidence above 0.5 away from the previous confident pitch |
| Melodic.PitchFromSpaced | src/analyzer.cpp:846-867 | pitch samples are spaced by the interval |
| Melodic.FrameSpaced | src/analyzer.cpp:859-867 | one frame's sample keeps the spacing and moves the last emission to it |
| Melodic.PitchesSpaced | src/analyzer.cpp:846-867 | pitch samples are spaced by the interval from the first one on |
| Melodic.PitchFirst | src/analyzer.cpp:846-867 | with PITCH enabled and frame 0 heard with confidence above 0.3 and a non-negative duration, the first pitch event is frame 0's pitch and confidence at time 0 |
| Melodic.PitchesFacts | src/analyzer.cpp:833-888 | pitch events are enabled, within the track, and each is a confident sample or a change; the converse for changes is Melodic.ChangeReported |
| Melodic.PitchFromReportsChange | src/analyzer.cpp:851-884 | from frame i on, with the previous confident pitch given, every frame within the track passing the pitch-change test is reported |
| Melodic.ChangeReported | src/analyzer.cpp:833-888 | with PITCH_CHANGE enabled, every frame after the first with confidence above 0.5 whose positive pitch is a jump away from the positive previous confident pitch, with no frame up to it past the end, is reported with both pitches |
| Melodic.BuildMelody | src/analyzer.cpp:892-929 | the melody loop appends exactly the melody events |
| Melodic.MelodyFromSpaced | src/analyzer.cpp:909-927 | melody samples are spaced by the interval |
| Melodic.MelodyFromVoiced | src/analyzer.cpp:913-927 | melody events are voiced frames (frequency above 0) within the track |
| Melodic.MelodiesSpaced | src/analyzer.cpp:909-927 | melody events are spaced by the interval from the first one on |
| Melodic.MelodyFirst | src/analyzer.cpp:909-926 | with MELODY enabled and frame 0 of the first contour voiced and a non-negative duration, the first melody event is its frequency at time 0 |
| Melodic.MelodiesFacts | src/analyzer.cpp:892-929 | melody events are enabled, within the track and voiced |
| Segments.LoopEndAsWritten | src/analyzer.cpp:963 | the loop bound as written is a 64-bit unsigned size |
| Segments.EmptySegmentationReadsPastEnd | src/analyzer.cpp:963 | with an empty segmentation the bound wraps around, and index 1 is read past the end |
| Segments.LoopEndAgrees | src/analyzer.cpp:963 | for every nonempty segmentation the bound as written equals the corrected one |
| Segments.BuildSegments | src/analyzer.cpp:933-976 | the boundary loop appends exactly the boundary events |
| Segments.SegmentFromExact | src/analyzer.cpp:963-972 | the markers are exactly the interior boundaries lying strictly inside the track |
| Segments.SegmentEventsFacts | src/analyzer.cpp:933-976 | boundaries are enabled and strictly inside the track; when the builder runs they are exactly the interior boundaries |
| Analyzer.HeartbeatCount | src/analyzer.cpp:1069 | the count is the number of positive multiples of the interval below the duration |
| Analyzer.NoMultipleBefore | src/analyzer.cpp:1069 | with a duration of 0 or less there is no heartbeat |
| Analyzer.MultiplesBefore | src/analyzer.cpp:1069 | the multiples below the duration are the first ⌈duration/interval⌉ − 1 of them |
| Analyzer.BuildHeartbeats | src/analyzer.cpp:1069-1074 | the heartbeat loop appends exactly the position events |
| Analyzer.HeartbeatsExact | src/analyzer.cpp:1069-1074 | a position event at k·interval for every k ≥ 1 with k·interval below the duration, and no other |
| Analyzer.BuildAll | src/analyzer.cpp:1056-1066 | the eleven builders append their events in order |
| Analyzer.Analyze | src/analyzer.cpp:1043-1088 | the timeline is sorted by time and is a permutation of start, built events, heartbeats and end |
| Analyzer.BuiltGated | src/analyzer.cpp:1056-1066 | every built event is of an enabled type that some builder emits |
| Analyzer.TimelineFacts | src/analyzer.cpp:1043-1082 | exactly one start and one end, each the expected event; every other non-position event is enabled and emittable |
| Analyzer.HeartbeatsArePositions | src/analyzer.cpp:1069-1074 | the heartbeats are position events |
| Analyzer.Assembled | src/analyzer.cpp:1043-1082 | any permutation of start, built, heartbeats and end keeps one start and one end, and its positions are the heartbeats |
| Analyzer.PositionsExact | src/analyzer.cpp:1069-1074 | the position events of the timeline are exactly the heartbeats |
| Analyzer.SortByTime | src/analyzer.cpp:1084-1088 | the result is sorted by timestamp and a permutation of the input |
| Analyzer.Insert | src/analyzer.cpp:1084-1088 | inserting into a sorted timeline keeps it sorted and adds exactly the event |
| Analyzer.InsertedSorted | src/analyzer.cpp:1084-1088 | an event placed after everything not later and before everything later keeps the order |
| Emitter.Clock.Sleep | src/emitter.cpp:37-39 | sleeping advances the clock by exactly the duration and records it |
| Emitter.Transport.Send | src/emitter.cpp:45 | sending appends the event to what was sent and the send to the log, so what was sent stays the events of the log |
| Emitter.Run | src/emitter.cpp:11-47 | the transport's log gains exactly the replay's sends, so what is sent is the replay's events; every sleep lasts more than 0 and at most 100 ms |
| Emitter.Turn | src/emitter.cpp:16-46 | one iteration sends the abort and stops, or waits and sends the event unless the flag rose, matching one step of the replay |
| Emitter.WaitUntil | src/emitter.cpp:32-40 | the wait ends at the specified instant, with sleeps of at most 100 ms |
| Emitter.WaitEndFacts | src/emitter.cpp:32-40 | the wait ends at the target unless the flag rises; a rising flag is seen within 100 ms |
| Emitter.ReplayUninterrupted | src/emitter.cpp:16-46 | without an interrupt every event is sent once, unchanged and in order, and no abort is sent |
| Emitter.ReplayNotEarly | src/emitter.cpp:14-40 | no event is sent before the start plus its timestamp |
| Emitter.ReplayShape | src/emitter.cpp:16-46 | a replay sends a prefix of the timeline, then at most one abort |
| Emitter.ReplayAbortLast | src/emitter.cpp:17-24 | nothing is sent after an abort |
| Emitter.InterruptSeenAtTop | src/emitter.cpp:17-24 | a flag seen at the top sends one "user_interrupt" abort stamped with that event's time, and ends |
| Emitter.LastEventInterruptSendsNothing | src/emitter.cpp:32-45 | as written, a flag raised while waiting for the last event sends nothing at all |
| Emitter.InterruptedSingleEvent | src/emitter.cpp:32-45 | a one-event timeline interrupted during its wait sends neither the event nor an abort |
| Emitter.IntendedAbortsWhenCut | src/emitter.h:15-16 | corrected: a replay either sends every event or ends with an abort |
| PathTranslation.Backslashed | client/windows-native/winplay/src/path_translator.cpp:30-36 | every '/' becomes '\\', and every other character is kept |
| PathTranslation.EmptyUnchanged | client/windows-native/winplay/src/path_translator.cpp:8 | the empty path is returned unchanged |
| PathTranslation.WindowsPathUnchanged | client/windows-native/winplay/src/path_translator.cpp:11-15 | a drive-letter path or a UNC path is returned unchanged |
| PathTranslation.DriveMount | client/windows-native/winplay/src/path_translator.cpp:18-32 | "/mnt/x" alone or followed by '/' becomes the uppercase drive "X:" and the rest with '\\'; "/mnt/c" becomes "C:\\" |
| PathTranslation.LongMountNameIsNative | client/windows-native/winplay/src/path_translator.cpp:21-37 | every path starting "/mnt/", a letter and a character other than '/' is translated as a native path, to the share |
| PathTranslation.NativeToShare | client/windows-native/winplay/src/path_translator.cpp:4-5 | a native path goes under the `\\wsl.localhost\` share of the distribution |
| PathTranslation.RewrittenHasNoSlash | client/windows-native/winplay/src/path_translator.cpp:18-37 | a rewritten path holds no '/' |
| PathTranslation.Idempotent | client/windows-native/winplay/src/path_translator.h:9-10 | translating a translated path changes nothing |
| Console.Digits | client/windows-native/winplay/src/console_status.cpp:58-66 | the decimal text of a number has at least one digit |
| Console.DigitsValue | client/windows-native/winplay/src/console_status.cpp:58-66 | the text reads back as the number, holds only digits, and is one digit long exactly below 10 |
| Console.Pad2Value | client/windows-native/winplay/src/console_status.cpp:63-64 | zero padding to two digits keeps the value and gives at least two digits |
| Console.WholePart | client/windows-native/winplay/src/console_status.cpp:60 | truncation of a non-negative real is its floor |
| Console.FormatTimeShows | client/windows-native/winplay/src/console_status.cpp:58-66 | the text is "MM:SS" with digits around the colon, seconds below 60, and minutes·60 + seconds the whole seconds of the clamped input |
| Console.FormatTimeZero | client/windows-native/winplay/src/console_status.cpp:59-64 | every time below one second, negative times included, shows "00:00" |
| Console.Clamp01 | client/windows-native/winplay/src/console_status.cpp:69 | the clamped fraction lies in [0, 1] and equals the input there |
| Console.ProgressBarCells | client/windows-native/winplay/src/console_status.cpp:68-74 | the bar is exactly `width` cells, '=' exactly for the first ⌊fraction·width⌋ cells, '-' after |
| Console.ProgressBarMonotone | client/windows-native/winplay/src/console_status.cpp:69-71 | a larger fraction never fills fewer cells |
| Console.ProgressBarExtremes | client/windows-native/winplay/src/console_status.cpp:69-71 | a fraction of 0 or less is all '-', 1 or more all '=' |
| Console.RenderAllAppend | client/windows-native/winplay/src/console_status.cpp:5-56 | the output of two call sequences is the output of the first followed by that of the second |
| Console.RenderedKeepsProtocol | client/windows-native/winplay/src/console_status.cpp:5-56 | every print keeps the flag true exactly when the output ends in an open progress line |
| Console.ConsoleStatus.constructor | client/windows-native/winplay/src/console_status.h:18-19 | nothing printed, and not on the progress line |
| Console.ConsoleStatus.FinishProgressLine | client/windows-native/winplay/src/console_status.cpp:5-10 | a newline is printed exactly when on the progress line, and the flag is cleared |
| Console.ConsoleStatus.PrintBanner | client/windows-native/winplay/src/console_status.cpp:12-15 | the banner line with the port is printed, without finishing a progress line |
| Console.ConsoleStatus.PrintPrepare | client/windows-native/winplay/src/console_status.cpp:17-21 | the line is finished, then the prepare message is printed |
| Console.ConsoleStatus.UpdatePlaying | client/windows-native/winplay/src/console_status.cpp:23-34 | the progress line is redrawn with position/duration (0 without a duration), and the flag is set |
| Console.ConsoleStatus.PrintEnded | client/windows-native/winplay/src/console_status.cpp:36-40 | the line is finished, then the end message is printed |
| Console.ConsoleStatus.PrintAborted | client/windows-native/winplay/src/console_status.cpp:42-50 | the line is finished, then `[ABORT]   Playback aborted`, with ` (reason)` only when the reason is nonempty |
| Console.ConsoleStatus.PrintShutdown | client/windows-native/winplay/src/console_status.cpp:52-56 | the line is finished, then the shutdown message is printed |
| Receiver.BasenameFacts | client/windows-native/winplay/src/main.cpp:30-33 | the basename is a suffix without separators, preceded by a separator unless it is the whole path |
| Receiver.BasenameWhole | client/windows-native/winplay/src/main.cpp:30-33 | a path without separators is its own basename |
| Receiver.PortOf | client/windows-native/winplay/src/main.cpp:42 | the port is the `atoi` value cast to 16 bits |
| Receiver.LeadingDigitsAll | client/windows-native/winplay/src/main.cpp:42 | text made of digits is read in full |
| Receiver.AtoiDigits | client/windows-native/winplay/src/main.cpp:42 | a number's decimal text reads back as the number |
| Receiver.PortWraps | client/windows-native/winplay/src/main.cpp:42 | a decimal port argument is taken modulo 65536 |
| Receiver.ArgsFrom | client/windows-native/winplay/src/main.cpp:40-57 | a listening launch has a 16-bit port; an exit has code 0 or 1 |
| Receiver.ParseArguments | client/windows-native/winplay/src/main.cpp:36-57 | the argument loop gives exactly the specified launch |
| Receiver.Defaults | client/windows-native/winplay/src/main.cpp:36-37 | with no argument the player listens on port 5000 for the distribution "Ubuntu" |
| Receiver.PortAndDistro | client/windows-native/winplay/src/main.cpp:40-44 | `--port N` / `-p N` and `--distro NAME` set the port and the distribution |
| Receiver.HelpExits | client/windows-native/winplay/src/main.cpp:45-52 | `-h`/`--help` exits with code 0 |
| Receiver.DanglingOption | client/windows-native/winplay/src/main.cpp:41-56 | an option missing its value exits with code 1 |
| Receiver.ShowProgress | client/windows-native/winplay/src/main.cpp:148-157 | the progress step moves to the specified session and prints the specified calls |
| Receiver.HandleDatagram | client/windows-native/winplay/src/main.cpp:84-144 | the switch moves to the specified session, issues the specified player requests and prints the specified calls |
| Receiver.Step | client/windows-native/winplay/src/main.cpp:74-158 | one loop turn: the next session, the requests and the printed calls are the specified ones, and the protocol is kept |
| Receiver.PrepareInAnyState | client/windows-native/winplay/src/main.cpp:85-99 | a prepare, in any state, opens the translated path and moves to PREPARED on success, else to STOPPED |
| Receiver.StartTransitions | client/windows-native/winplay/src/main.cpp:101-125 | a start prepares first in WAITING, plays on success from WAITING or PREPARED, else stops, and is ignored when playing |
| Receiver.EndAndAbortStop | client/windows-native/winplay/src/main.cpp:127-139 | an end or an abort stops the player and moves to STOPPED |
| Receiver.IgnoredDatagrams | client/windows-native/winplay/src/main.cpp:79-82 | unparsable datagrams change nothing; silence and other events only run the progress step |
| Receiver.FinishedStops | client/windows-native/winplay/src/main.cpp:148-157 | a finished player moves PLAYING to STOPPED, printing the end last |
| Receiver.PlayingNeedsStart | client/windows-native/winplay/src/main.cpp:101-125 | PLAYING is reached only by a start that the player accepted |
| Receiver.OpensTranslated | client/windows-native/winplay/src/main.cpp:85-110 | every file opened is the translation of a prepared or started file |
| Receiver.StoppedIsTerminal | client/windows-native/winplay/src/main.cpp:74 | from STOPPED the loop does nothing more |
| Receiver.UsualSession | client/windows-native/winplay/src/main.cpp:74-158 | prepare, start and a finished player give PREPARED, PLAYING, STOPPED with the expected requests and output |
| Receiver.OnLineAfterLast | client/windows-native/winplay/src/console_status.cpp:5-34 | after a series of prints, the progress line is open exactly when the last print was a progress update |
| Receiver.FlagTracksPlaying | client/windows-native/winplay/src/main.cpp:148-157 | after a turn, the progress line is open exactly when the session is playing |
| Receiver.LoopEnds | client/windows-native/winplay/src/main.cpp:74 | the loop ends with no input, at shutdown or once stopped |
| Receiver.Turn | client/windows-native/winplay/src/main.cpp:75-157 | one turn of the loop keeps the rest of the specified trace ahead, the output rendered from the calls so far, and the progress line open iff playing |
| Receiver.ReceiveLoop | client/windows-native/winplay/src/main.cpp:74-158 | the loop reaches the specified final session, requests and output, with the progress line open iff playing |
| Receiver.Serve | client/windows-native/winplay/src/main.cpp:59-164 | banner, loop and shutdown: the specified session, requests and output; the line stays open only when playing and not interrupted |

## Left out

- The Essentia networks (loaders, framing, the feature algorithms, `Network::run`) and the segmenter: the feature pool, the duration and the segment positions are inputs.
- Protobuf serialization: a payload datatype stands for the serialized envelope, and the emitter sends timeline events rather than bytes.
- Console output of the analyzer, the emitter and the configuration loader (progress counts, error messages on stderr).
- `print_available_events` (src/config.cpp:38-53) only prints the sorted non-transport names, so it is left out as I/O; `load_config` returning false after it is modelled.
- The YAML and command-line parsing libraries: a YAML file is an already-read document of optional fields, and a command line is a record of the options given, or none for a parse error.
- Floating point: all times and feature values are exact reals. Behaviour that depends on rounding, such as the accumulated heartbeat time `t += interval`, is modelled exactly (`k · interval`).
- Spectral.BuildTimbre: compares the squared distance with 2500 rather than the square root with 50, and the timbre payload carries the squared distance.
- Analyzer.Analyze: requires a positive sample rate, and a positive position interval unless the duration is at most the interval, because the heartbeat loop does not terminate otherwise.
- Analyzer.SortByTime: `std::sort` is not stable, so the model claims sorted and a permutation but no order among equal timestamps (the start event need not come first).
- Which of the analysis passes feeds which builder: the plan and the builders are modelled separately; a builder reads whatever the pool holds.
- src/main.cpp calls a three-argument `run` that is not part of this model; the two-argument `Emitter::run` of src/emitter.h is modelled.
- The transport socket and its setup (src/transport.cpp is not part of this model): sending is an append to a record that never fails.
- Emitter.Run: time advances only by the modelled sleeps; the steady clock is an integer nanosecond counter, and the interrupt flag is an instant fixed in advance, never cleared.
- Console.FormatTime: the cast of the seconds to `int` is modelled as unbounded; inputs beyond the 32-bit range are not distinguished.
- Console.ConsoleStatus.UpdatePlaying: the `%.1f` renderings of the position and duration are kept as numbers, not as decimal text.
- Receiver.PortOf: `atoi` overflow (undefined behaviour in C) is not modelled; the value is unbounded before the 16-bit cast.
- The UDP receiver, the audio player and the Ctrl-C handler (udp_receiver.cpp, audio_player.cpp and the console handler are not part of this model): the received datagrams, the player's answers and the shutdown turn are inputs, and the modelled loop also ends when the input runs out.
- Receiver.Requests: the duration and position queries to the audio player are not recorded as requests, their answers are inputs.
- Console.ConsoleStatus.PrintBanner: unlike every other print it does not finish an open progress line; the player prints it first, so the protocol holds in practice, and the model states it only for a banner printed off the progress line.
- recv/main.cpp and the Go client are not part of this model.

## Findings

| source | as written | input that shows it | evidently intended | confidence | as-written member | corrected member |
|---|---|---|---|---|---|---|
| src/analyzer.cpp:963 | the boundary loop runs `i < segmentation.size() - 1` on an unsigned size | an empty segmentation with SEGMENT_BOUNDARY enabled and at least ten MFCC frames: the bound wraps to 2^64 − 1 and index 1 is read | no boundary when the segmenter reports none | not executed | Segments.EmptySegmentationReadsPastEnd | Segments.SegmentEventsFacts |
| src/emitter.cpp:32-45 | a flag raised while waiting for an event skips that event and leaves the abort to the next iteration | a timeline with one event due at 1 s, interrupted at 0.5 s: nothing is sent, not even an abort | an interrupted replay always ends with a "user_interrupt" abort (src/emitter.h:15) | not executed | Emitter.InterruptedSingleEvent | Emitter.IntendedAbortsWhenCut |
