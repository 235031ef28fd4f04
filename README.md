# tomato AudioAnalyzer, modelled in Dafny

This project models the audio analyzer of the tomato toolbox for Turkish makam
music (`tomato/audio/AudioAnalyzer.py`). The analyzer runs a fixed chain of
external analyzers over a recording:

1. predominant-melody extraction;
2. pitch filtering;
3. tonic identification;
4. a pitch distribution and its octave-folded pitch-class distribution;
5. ahenk (transposition) identification;
6. stable-note modelling.

It returns the seven results as one feature dictionary. The analyzer also
keeps one settings group per stage, which `set_*_params` updates. It saves a
feature dictionary as JSON and loads it back, and it plots the pitch track
next to the distribution, with the stable notes drawn over it.

The model is split into these modules:

- `Wrappers`: the `Option` and `Result` datatypes.
- `Values`: the dynamic Python values the analyzer handles and the exceptions
  it raises. These values are dicts, numbers, strings, lists, numpy pitch
  arrays and pitch-distribution objects.
- `Parameters`: the validate-then-assign rule shared by the five setters.
  `Override` is the rule as a function; `ApplyOverrides` is the assignment
  loop, proved equal to it.
- `Analyzer`: class `AudioAnalyzer`. It holds the five settings groups as
  mutable fields, and its setters update them in place.
- `Pipeline`: `analyze` and its stage helpers, as functions of a
  configuration. The configuration holds the external analyzers and the
  current settings.
- `FeatureCodec`: `save_features` and `load_features` on the JSON value tree.
- `NoteOverlay`: the data side of `plot`:
  - the masked track;
  - the panel limits;
  - each note's relative occurrence;
  - the notes that pass the display threshold;
  - their markers and labels;
  - the y-ticks.

The external analyzers are not part of this model:

- PredominantMelodyMakam;
- PitchFilter;
- TonicLastNote;
- AhenkIdentifier;
- NoteModel;
- PitchDistribution's `from_hz_pitch`, `to_pcd`, `to_dict` and `from_dict`.

Each of them is a function-valued parameter, and the model assumes nothing
about it except where a lemma states a requirement. For example, the
round-trip lemmas require that `from_dict` inverts `to_dict`.

Three behaviours of the code are easy to miss, and the model keeps them:

- `plot` accepts a track of a single sample (both time limits are then that
  sample's time) and a set of notes none of which passes the threshold (no
  overlays and no y-ticks). Its errors are:
  - IndexError for an empty track;
  - ValueError for a distribution without bins;
  - ValueError for densities whose length differs from the bins.
- `analyze` without a makam raises `NotImplementedError` only after
  extraction, filtering, tonic identification and both distributions have
  run. An error raised by one of those stages therefore takes precedence.
- `save_features` without a file path serializes the document and then
  discards the text. It returns nothing, so the model's `Discarded` carries
  no text.

## Model

| member | source | states |
|---|---|---|
| Values.IsPlain | tomato/audio/AudioAnalyzer.py:183-186 | json can write a value only when no numpy array and no distribution object occurs anywhere in it |
| Values.SamplesToList | tomato/audio/AudioAnalyzer.py:177-179 | `tolist` of a pitch array gives one `[time, frequency]` pair per sample, in order |
| Values.SampleRows | tomato/audio/AudioAnalyzer.py:100-101 | a pitch value yields samples exactly when it is an array, or a list that is empty or whose rows all have one common width of at least two and hold only numbers; sample i is then the first two entries of row i |
| Values.Frequencies | tomato/audio/AudioAnalyzer.py:101 | the frequency column has one entry per sample, each equal to that sample's frequency |
| Values.FrequencyColumn | tomato/audio/AudioAnalyzer.py:101 | `np.array(pitch)[:, 1]` exists exactly for an array, or for a non-empty list of numeric rows of one common width of at least two; it is then the frequency column of those samples |
| Values.SamplesToListRoundTrip | tomato/audio/AudioAnalyzer.py:177-179 | the list form of a pitch array is plain JSON data and reads back as the same samples |
| Parameters.DefaultDistributionParams | tomato/audio/AudioAnalyzer.py:24 | the distribution group starts with exactly `smooth_factor` and `step_size`, both 7.5 |
| Parameters.Override | tomato/audio/AudioAnalyzer.py:145-151 | a setter fails iff some keyword is not a known setting, and then raises the KeyError listing all known settings; otherwise the keys are unchanged, every supplied key takes its new value and every other key keeps its old one |
| Parameters.ApplyOverrides | tomato/audio/AudioAnalyzer.py:150-151 | the assignment loop writes every keyword argument and leaves every other entry as it was |
| Parameters.ApplyOverridesIsOverride | tomato/audio/AudioAnalyzer.py:145-151 | once validation passes, the assignment loop's result is exactly the successful `Override` |
| Parameters.OverrideIdempotent | tomato/audio/AudioAnalyzer.py:145-151 | applying the same overrides twice gives the same settings as applying them once |
| Analyzer.AudioAnalyzer.constructor | tomato/audio/AudioAnalyzer.py:16-24 | a new analyzer holds each analyzer's default settings and the 7.5 / 7.5 distribution group |
| Analyzer.AudioAnalyzer.SetPitchExtractorParams | tomato/audio/AudioAnalyzer.py:118-125 | the extractor group becomes `Override` of its old value; on an unknown key it is left unchanged and the KeyError lists the old keys |
| Analyzer.AudioAnalyzer.SetPitchFilterParams | tomato/audio/AudioAnalyzer.py:127-134 | the same for the pitch-filter group |
| Analyzer.AudioAnalyzer.SetTonicIdentifierParams | tomato/audio/AudioAnalyzer.py:136-143 | the same for the tonic-identifier group |
| Analyzer.AudioAnalyzer.SetPitchDistributionParams | tomato/audio/AudioAnalyzer.py:145-151 | the same for the distribution group, which keeps exactly its two keys, so the error always lists `smooth_factor` and `step_size` |
| Analyzer.AudioAnalyzer.SetNoteModelerParams | tomato/audio/AudioAnalyzer.py:153-160 | the same for the note-model group |
| Analyzer.AudioAnalyzer.Analyze | tomato/audio/AudioAnalyzer.py:96-103 | `analyze` on the object runs the pipeline on its current settings and can never fail on a missing distribution setting |
| Pipeline.ExtractPitch | tomato/audio/AudioAnalyzer.py:57-65 | the track record is the extractor's settings with the samples added under `pitch`, all other settings kept |
| Pipeline.FilterPitch | tomato/audio/AudioAnalyzer.py:67-74 | KeyError when the track has no samples; otherwise the same keys, the samples replaced by the filter's output, everything else unchanged |
| Pipeline.IdentifyTonic | tomato/audio/AudioAnalyzer.py:76-86 | KeyError("pitch") for missing samples, then IndexError for no candidate, then KeyError("source") for a track without a source; it succeeds iff none of these occurs, and then it is the whole first candidate stamped with the track's source |
| Pipeline.IdentifyAhenk | tomato/audio/AudioAnalyzer.py:88-94 | KeyError("value") for a tonic without a value, then KeyError("source") for one without a source; it succeeds iff neither occurs, and the result is the identifier's whole ahenk record stamped with the tonic's source |
| Pipeline.ComputePitchDistribution | tomato/audio/AudioAnalyzer.py:96-103 | in the order the code raises them: KeyError("pitch"), IndexError for a track without a frequency column, then KeyError for a missing tonic `value`, `smooth_factor` or `step_size`; it succeeds iff none occurs, and the distribution is then built from the frequency column, the tonic and the current smoothing and step |
| Pipeline.ComputeClassPitchDistribution | tomato/audio/AudioAnalyzer.py:105-109 | it fails exactly when the full distribution does, with the same error; otherwise it is that distribution's class projection |
| Pipeline.GetStableNotes | tomato/audio/AudioAnalyzer.py:111-116 | it succeeds iff the tonic has a value; the result is the note model's output for the distribution, tonic value and makam |
| Pipeline.Measure | tomato/audio/AudioAnalyzer.py:26-39 | the stages before the makam check succeed exactly under `MeasureSucceeds`; filtering the extracted track always succeeds, and a failure of `identify_tonic` or `compute_pitch_distribution` on that track is returned with that stage's own error; the track carries the filtered samples; the tonic is exactly what `identify_tonic` returns for that track, so the whole first candidate with the track's source; both distributions come from the filtered frequencies |
| Pipeline.Analyze | tomato/audio/AudioAnalyzer.py:26-55 | earlier-stage errors win; a missing makam then raises NotImplementedError; with a makam it always succeeds, returning exactly the seven feature keys with each stage's output, the class distribution the projection of the returned distribution, and track, tonic and ahenk sharing one source |
| Pipeline.FeatureDict | tomato/audio/AudioAnalyzer.py:52-55 | the returned dictionary has exactly the seven feature keys, each holding its stage's result, and it is plain data except for the track and the two distributions when the tonic, ahenk and stable notes are |
| Pipeline.MeasuredTonicPlain | tomato/audio/AudioAnalyzer.py:81-84 | when the extractor's settings and the tonic identifier's output are plain data, so is every entry of the tonic record |
| Pipeline.AnalyzedAhenkPlain | tomato/audio/AudioAnalyzer.py:91-92 | when the external analyzers return plain data, so does the ahenk record `analyze` returns |
| Pipeline.AnalyzedFeaturesWellFormed | tomato/audio/AudioAnalyzer.py:52-55 | when the external analyzers return JSON-ready data, the feature dictionary has the shape `save_features` expects |
| Pipeline.AnalyzedFeaturesRoundTrip | tomato/audio/AudioAnalyzer.py:162-201 | saving the output of `analyze` succeeds, and loading the saved document gives back the features with only the samples turned into lists |
| FeatureCodec.DistributionToPlain | tomato/audio/AudioAnalyzer.py:165-175 | a distribution object becomes its `to_dict` form; anything else, plain data in particular, is left as it is (the AttributeError is swallowed) |
| FeatureCodec.SamplesToPlain | tomato/audio/AudioAnalyzer.py:177-181 | a numpy array becomes plain data holding the same samples; anything else is left as it is |
| FeatureCodec.ConvertedDocument | tomato/audio/AudioAnalyzer.py:164-181 | the converted copy has the same keys as the features |
| FeatureCodec.PitchWithPlainSamples | tomato/audio/AudioAnalyzer.py:177-181 | IndexError for a numpy-array track (string index), TypeError for any other non-dict track, KeyError("pitch") for a dict without samples; it succeeds exactly for a dict holding samples, and then only the samples are converted to lists |
| FeatureCodec.Encode | tomato/audio/AudioAnalyzer.py:162-186 | KeyError for a missing `pitch_distribution`, then `pitch_class_distribution`, then `pitch`; then the track's own error; it succeeds iff all three entries are there, the track converts and the converted document is plain, and otherwise fails with json's error (NotSerializable); a successful document has the same keys, both distributions converted by `to_dict`, the samples converted to lists and every other entry unchanged |
| FeatureCodec.SaveFeatures | tomato/audio/AudioAnalyzer.py:162-186 | the field-by-field conversion fails exactly when `Encode` does, with its error; without a path the document is discarded, with one it is written to that path |
| FeatureCodec.LoadFeatures | tomato/audio/AudioAnalyzer.py:188-201 | on a parsed dict: KeyError for a missing `pitch_distribution`, then for a missing `pitch_class_distribution`; it succeeds iff both are present, both become `from_dict` objects and every other entry is left as read |
| FeatureCodec.SaveLoadRoundTrip | tomato/audio/AudioAnalyzer.py:162-201 | when `from_dict` inverts `to_dict`, load after save gives back the same distributions and every other entry unchanged, except that the samples turn into lists |
| FeatureCodec.SamplesSurviveRoundTrip | tomato/audio/AudioAnalyzer.py:177-181 | the samples read back after a round trip are the samples that were saved |
| FeatureCodec.EncodeIdempotent | tomato/audio/AudioAnalyzer.py:164-181 | converting an already-saved document succeeds and changes nothing: the AttributeError fallbacks leave plain data alone |
| NoteOverlay.MaskInaudible | tomato/audio/AudioAnalyzer.py:205-206 | every sample keeps its time; its frequency is blanked exactly when it is below 20 Hz and kept otherwise |
| NoteOverlay.Distances | tomato/audio/AudioAnalyzer.py:238-239 | entry i is the absolute distance from the note's pitch to bin i |
| NoteOverlay.ArgMin | tomato/audio/AudioAnalyzer.py:240 | `np.argmin` returns the smallest element, and the first one on a tie |
| NoteOverlay.NearestBin | tomato/audio/AudioAnalyzer.py:238-240 | the chosen bin is no farther from the pitch than any other bin, and strictly nearer than every earlier bin |
| NoteOverlay.RelOccur | tomato/audio/AudioAnalyzer.py:238-241 | a note's relative occurrence is the density at a bin nearest to its stable pitch |
| NoteOverlay.RelOccurrences | tomato/audio/AudioAnalyzer.py:235-241 | there is one relative occurrence per stable note |
| NoteOverlay.RelOccurrenceAtNearestBin | tomato/audio/AudioAnalyzer.py:238-241 | each note's relative occurrence is the density at a bin nearest to its stable pitch, the first such bin on a tie |
| NoteOverlay.PeakOccurrence | tomato/audio/AudioAnalyzer.py:234-242 | the running maximum from 0 is non-negative, bounds every occurrence, and is attained by one of them unless it is 0 |
| NoteOverlay.DisplayedIndices | tomato/audio/AudioAnalyzer.py:245-246 | every displayed index names a note whose occurrence is above a tenth of the peak, and indices appear in iteration order |
| NoteOverlay.DisplayedIndicesComplete | tomato/audio/AudioAnalyzer.py:245-246 | every note whose occurrence is above a tenth of the peak is displayed |
| NoteOverlay.DisplayedIndicesStep | tomato/audio/AudioAnalyzer.py:245-246 | considering one more note adds that note's index exactly when it passes the threshold |
| NoteOverlay.RelOccurrencesStep | tomato/audio/AudioAnalyzer.py:235-241 | considering one more note appends that note's occurrence |
| NoteOverlay.PeakOccurrenceStep | tomato/audio/AudioAnalyzer.py:242 | one more occurrence updates the peak as `max([max_rel_occur, rel_occur])` does |
| NoteOverlay.RoundHalfAwayFromZero | tomato/audio/AudioAnalyzer.py:266 | Python 2's `round` is within one half of its argument, with halves going away from zero |
| NoteOverlay.MaxOf | tomato/audio/AudioAnalyzer.py:273 | `max` of the densities is one of them and bounds all of them |
| NoteOverlay.MinOf | tomato/audio/AudioAnalyzer.py:223 | `np.min` of the bins is one of them and is bounded by all of them |
| NoteOverlay.OverlayOf | tomato/audio/AudioAnalyzer.py:250-267 | a displayed note gets the tonic marker iff its performed interval is 0; its label shows the rounded interval and sits at its occurrence plus 3% of the largest density; its line and marker use its theoretical and stable pitch and its occurrence |
| NoteOverlay.AnnotateNotes | tomato/audio/AudioAnalyzer.py:234-242 | the first loop computes each note's relative occurrence in iteration order, together with their running maximum |
| NoteOverlay.OverlaysAt | tomato/audio/AudioAnalyzer.py:250-270 | overlay j is what is drawn for the j-th displayed note |
| NoteOverlay.TicksAt | tomato/audio/AudioAnalyzer.py:246-247 | tick j is the stable pitch of the j-th displayed note |
| NoteOverlay.OverlaysAtAppend | tomato/audio/AudioAnalyzer.py:246-270 | displaying one more note appends its overlay and its tick |
| NoteOverlay.SelectOverlays | tomato/audio/AudioAnalyzer.py:244-270 | the second loop yields exactly the overlays and ticks of the notes that pass the threshold, in iteration order |
| NoteOverlay.Plot | tomato/audio/AudioAnalyzer.py:204-291 | `plot` fails iff the track is empty (IndexError) or the distribution has no bins or mismatched densities (ValueError); otherwise it returns the masked track, the first and last times, the bin range, the displayed notes' overlays and ticks, and 1.2 times the largest density |
| NoteOverlay.PeakIsDisplayed | tomato/audio/AudioAnalyzer.py:242-246 | whenever some note occurs, a note with the largest occurrence is displayed |
| NoteOverlay.DisplayedOnly | tomato/audio/AudioAnalyzer.py:245-246 | when exactly one note passes the threshold, each prefix of the notes displays that note alone once it reaches it |
| NoteOverlay.OnlyOccurringNoteDisplayed | tomato/audio/AudioAnalyzer.py:234-246 | when only one note occurs in the distribution, it sets the peak and it is the only note displayed |
| NoteOverlay.TonicMarkerIffZeroInterval | tomato/audio/AudioAnalyzer.py:254-259 | among the displayed notes, the tonic marker goes exactly to those whose performed interval is 0 |
| NoteOverlay.RelOccurExample | tomato/audio/AudioAnalyzer.py:238-241 | with bins 0, 100, 200 and 300 Hz and densities 1, 5, 2 and 1, a note at 104 Hz reads density 5 |
| NoteOverlay.ThresholdExample | tomato/audio/AudioAnalyzer.py:246 | with a peak of 5, an occurrence of 0.4 is hidden and one of 0.6 is shown |

## Left out

- The external analyzers' algorithms (melody extraction, pitch filtering, tonic and ahenk identification, distribution computation, note modelling) are parameters of the model. Failures raised inside them are not modelled.
- JSON text and files: the document handed to `json.dump` is modelled as a value tree. Writing, opening and reading files are not modelled. Neither is `load_features`' fallback from opening a path to parsing the argument as JSON text after an IOError, so `LoadFeatures` starts from the parsed tree.
- The verbose progress messages are not modelled, and the model follows the default `verbose=False`. Every stage helper's message reads `source`: the track's in `filter_pitch`, `identify_tonic`, `compute_pitch_distribution` and `compute_class_pitch_distribution` (lines 69, 79, 98, 107), and the tonic's in `identify_ahenk` and `get_stable_notes` (lines 90, 113). With verbose on, a missing `source` therefore raises KeyError("source") at the start of that helper, before any error the model gives it. For example, `get_stable_notes` then fails for a tonic without a source, and `identify_ahenk` raises KeyError("source") before KeyError("value").
- `__dict__` introspection of the external analyzer objects: each settings group is an explicit record, and `setattr` is an update of that record.
- Drawing (figure, axes, lines, markers, text, grids, spines) is not modelled. Only the data that decide what is drawn are kept, and the returned figure and axes objects are replaced by `Figure`.
- NoteOverlay.OverlayOf: the label's text `"<symbol>, <N> cents"` is represented by its parts, the symbol and N. Decimal formatting is not modelled.
- Floating point: frequencies, densities and intervals are exact reals. NaN is represented by an absent frequency, and rounding error is not modelled.
- `plot` reads the notes, distribution and samples from the feature dictionary. The model takes them as typed arguments, so the KeyError and TypeError of a malformed feature dictionary in `plot` are not modelled.
- The stable notes form a dict that `plot` iterates twice with `iteritems`. The model fixes one iteration order as a sequence, and both loops follow it.
- Values.SampleRows: a list whose rows hold non-numeric entries (which numpy turns into a string or object array) yields no samples.
- Values.FrequencyColumn: likewise, such a list has no frequency column in the model, although numpy's `[:, 1]` would give one of strings or objects.
- Values.SamplesToList: a numpy pitch array is represented by its time and frequency columns; further columns, such as the extractor's salience, are not carried.
- FeatureCodec.PitchWithPlainSamples: a track that is a distribution object raises TypeError in the model, as subscripting an object without `__getitem__` does; the distribution class is not part of this model.
- Mutation through aliasing is not modelled. `save_features` and `plot` deep-copy their input, and `filter_pitch` copies the track. The model's values are immutable, which matches the deep copies.
- NoteOverlay.RelOccurrences: its own contract states only the length. `RelOccurrenceAtNearestBin` states each entry's value, the density at the nearest bin.
