/**
 * The analysis pipeline (AudioAnalyzer.analyze and its stage helpers). The
 * external analyzers are the function-valued fields of `Stages`; each stage
 * that has tunable settings receives its parameter group from `Config`.
 */
module Pipeline {
  import opened Wrappers
  import opened Values
  import opened Parameters
  import FeatureCodec

  const PitchKey := "pitch"
  const SourceKey := "source"
  const ValueKey := "value"

  /** The keys of the feature dictionary `analyze` returns. */
  const FeatureKeys: set<string> :=
    {"pitch", "tonic", "ahenk", "makam", "pitch_distribution", "pitch_class_distribution", "stable_notes"}

  /** What the predominant-melody extractor returns: its settings and the pitch samples. */
  datatype ExtractorOutput = ExtractorOutput(settings: Record, pitch: Value)

  /** The external analyzers, as functions of their parameter group and their inputs. */
  datatype Stages = Stages(
    extract: (Record, string) -> ExtractorOutput,                      // PredominantMelodyMakam.run
    filter: (Record, Value) -> Value,                                  // PitchFilter.run
    identifyTonic: (Record, Value) -> seq<Record>,                     // TonicLastNote.identify
    identifyAhenk: (Value, string) -> Record,                          // AhenkIdentifier.identify
    fromHzPitch: (seq<real>, Value, Value, Value) -> PitchDistribution, // PitchDistribution.from_hz_pitch
    toPcd: PitchDistribution -> PitchDistribution,                     // PitchDistribution.to_pcd
    calculateNotes: (Record, PitchDistribution, Value, string) -> Value) // NoteModel.calculate_notes

  /** The analyzers together with the current parameter group of each stage. */
  datatype Config = Config(
    stages: Stages,
    extractor: Record,
    filter: Record,
    tonicIdentifier: Record,
    distribution: Record,
    noteModeler: Record)

  /** The record `extract_pitch` returns: the extractor's settings with the samples under "pitch". */
  function ExtractPitch(cfg: Config, filename: string): (r: Record)
    ensures var out := cfg.stages.extract(cfg.extractor, filename);
      && r.Keys == out.settings.Keys + {PitchKey}
      && r[PitchKey] == out.pitch
      && forall key :: key in out.settings && key != PitchKey ==> r[key] == out.settings[key]
  {
    var out := cfg.stages.extract(cfg.extractor, filename);
    out.settings[PitchKey := out.pitch]
  }

  /**
   * `filter_pitch`: a copy of the track whose samples are replaced by the
   * filter's output. The argument is a value, so it cannot change.
   */
  function FilterPitch(cfg: Config, pitch: Record): (r: Result<Record, Error>)
    ensures PitchKey !in pitch ==> r == Failure(KeyError(PitchKey))
    ensures PitchKey in pitch ==> r.Success?
    ensures r.Success? ==>
      && r.value.Keys == pitch.Keys
      && r.value[PitchKey] == cfg.stages.filter(cfg.filter, pitch[PitchKey])
      && forall key :: key in pitch && key != PitchKey ==> r.value[key] == pitch[key]
  {
    if PitchKey !in pitch then Failure(KeyError(PitchKey))
    else Success(pitch[PitchKey := cfg.stages.filter(cfg.filter, pitch[PitchKey])])
  }

  /**
   * `identify_tonic`: the identifier's first candidate, stamped with the
   * track's "source".
   */
  function IdentifyTonic(cfg: Config, pitch: Record): (r: Result<Record, Error>)
    ensures PitchKey !in pitch ==> r == Failure(KeyError(PitchKey))
    ensures PitchKey in pitch && cfg.stages.identifyTonic(cfg.tonicIdentifier, pitch[PitchKey]) == [] ==>
              r == Failure(IndexError)
    ensures PitchKey in pitch && |cfg.stages.identifyTonic(cfg.tonicIdentifier, pitch[PitchKey])| > 0 && SourceKey !in pitch ==>
              r == Failure(KeyError(SourceKey))
    ensures r.Success? <==>
              && PitchKey in pitch && SourceKey in pitch
              && |cfg.stages.identifyTonic(cfg.tonicIdentifier, pitch[PitchKey])| > 0
    ensures r.Success? ==>
      var first := cfg.stages.identifyTonic(cfg.tonicIdentifier, pitch[PitchKey])[0];
      && r.value.Keys == first.Keys + {SourceKey}
      && r.value[SourceKey] == pitch[SourceKey]
      && forall key :: key in first && key != SourceKey ==> r.value[key] == first[key]
  {
    if PitchKey !in pitch then Failure(KeyError(PitchKey))
    else
      var candidates := cfg.stages.identifyTonic(cfg.tonicIdentifier, pitch[PitchKey]);
      if |candidates| == 0 then Failure(IndexError)
      else if SourceKey !in pitch then Failure(KeyError(SourceKey))
      else Success(candidates[0][SourceKey := pitch[SourceKey]])
  }

  /** `identify_ahenk`: the ahenk of the tonic frequency and makam, stamped with the tonic's "source". */
  function IdentifyAhenk(cfg: Config, tonic: Record, makam: string): (r: Result<Record, Error>)
    ensures ValueKey !in tonic ==> r == Failure(KeyError(ValueKey))
    ensures ValueKey in tonic && SourceKey !in tonic ==> r == Failure(KeyError(SourceKey))
    ensures r.Success? <==> ValueKey in tonic && SourceKey in tonic
    ensures r.Success? ==>
      var ahenk := cfg.stages.identifyAhenk(tonic[ValueKey], makam);
      && r.value.Keys == ahenk.Keys + {SourceKey}
      && r.value[SourceKey] == tonic[SourceKey]
      && forall key :: key in ahenk && key != SourceKey ==> r.value[key] == ahenk[key]
  {
    if ValueKey !in tonic then Failure(KeyError(ValueKey))
    else
      var ahenk := cfg.stages.identifyAhenk(tonic[ValueKey], makam);
      if SourceKey !in tonic then Failure(KeyError(SourceKey))
      else Success(ahenk[SourceKey := tonic[SourceKey]])
  }

  /**
   * `compute_pitch_distribution`: the distribution of the track's frequency
   * column, referenced to the tonic frequency, built with the current
   * smoothing factor and step size.
   */
  function ComputePitchDistribution(cfg: Config, pitch: Record, tonic: Record): (r: Result<PitchDistribution, Error>)
    ensures PitchKey !in pitch ==> r == Failure(KeyError(PitchKey))
    ensures PitchKey in pitch && FrequencyColumn(pitch[PitchKey]).None? ==> r == Failure(IndexError)
    ensures PitchKey in pitch && FrequencyColumn(pitch[PitchKey]).Some? && ValueKey !in tonic ==>
              r == Failure(KeyError(ValueKey))
    ensures (PitchKey in pitch && FrequencyColumn(pitch[PitchKey]).Some? && ValueKey in tonic
             && SmoothFactor !in cfg.distribution) ==> r == Failure(KeyError(SmoothFactor))
    ensures (PitchKey in pitch && FrequencyColumn(pitch[PitchKey]).Some? && ValueKey in tonic
             && SmoothFactor in cfg.distribution && StepSize !in cfg.distribution) ==> r == Failure(KeyError(StepSize))
    ensures r.Success? <==>
              && PitchKey in pitch && FrequencyColumn(pitch[PitchKey]).Some?
              && ValueKey in tonic && SmoothFactor in cfg.distribution && StepSize in cfg.distribution
    ensures r.Success? ==>
              r.value == cfg.stages.fromHzPitch(FrequencyColumn(pitch[PitchKey]).value, tonic[ValueKey],
                                                cfg.distribution[SmoothFactor], cfg.distribution[StepSize])
  {
    if PitchKey !in pitch then Failure(KeyError(PitchKey))
    else match FrequencyColumn(pitch[PitchKey])
      case None => Failure(IndexError)
      case Some(freqs) =>
        if ValueKey !in tonic then Failure(KeyError(ValueKey))
        else if SmoothFactor !in cfg.distribution then Failure(KeyError(SmoothFactor))
        else if StepSize !in cfg.distribution then Failure(KeyError(StepSize))
        else Success(cfg.stages.fromHzPitch(freqs, tonic[ValueKey],
                                            cfg.distribution[SmoothFactor], cfg.distribution[StepSize]))
  }

  /** `compute_class_pitch_distribution`: the octave-folded projection of the full distribution. */
  function ComputeClassPitchDistribution(cfg: Config, pitch: Record, tonic: Record): (r: Result<PitchDistribution, Error>)
    ensures r.Success? <==> ComputePitchDistribution(cfg, pitch, tonic).Success?
    ensures r.Failure? ==> r.error == ComputePitchDistribution(cfg, pitch, tonic).error
    ensures r.Success? ==> r.value == cfg.stages.toPcd(ComputePitchDistribution(cfg, pitch, tonic).value)
  {
    match ComputePitchDistribution(cfg, pitch, tonic)
    case Failure(e) => Failure(e)
    case Success(pd) => Success(cfg.stages.toPcd(pd))
  }

  /** `get_stable_notes`: the note model's stable notes for the distribution, tonic frequency and makam. */
  function GetStableNotes(cfg: Config, pd: PitchDistribution, tonic: Record, makam: string): (r: Result<Value, Error>)
    ensures r.Success? <==> ValueKey in tonic
    ensures r.Failure? ==> r.error == KeyError(ValueKey)
    ensures r.Success? ==> r.value == cfg.stages.calculateNotes(cfg.noteModeler, pd, tonic[ValueKey], makam)
  {
    if ValueKey !in tonic then Failure(KeyError(ValueKey))
    else Success(cfg.stages.calculateNotes(cfg.noteModeler, pd, tonic[ValueKey], makam))
  }

  /** The artifacts `analyze` computes before it looks at the makam argument. */
  datatype Measured = Measured(pitch: Record, tonic: Record, distribution: PitchDistribution,
                               classDistribution: PitchDistribution)

  /**
   * When the stages before the makam check all succeed, stated directly in
   * terms of what the external analyzers return.
   */
  predicate MeasureSucceeds(cfg: Config, filepath: string) {
    var out := cfg.stages.extract(cfg.extractor, filepath);
    var filtered := cfg.stages.filter(cfg.filter, out.pitch);
    var candidates := cfg.stages.identifyTonic(cfg.tonicIdentifier, filtered);
    && SourceKey in out.settings
    && |candidates| > 0
    && FrequencyColumn(filtered).Some?
    && ValueKey in candidates[0]
    && SmoothFactor in cfg.distribution && StepSize in cfg.distribution
  }

  /**
   * The stages of `analyze` that run whatever the makam: extraction,
   * filtering, tonic identification and both distributions.
   */
  function Measure(cfg: Config, filepath: string): (r: Result<Measured, Error>)
    ensures r.Success? <==> MeasureSucceeds(cfg, filepath)
    // each stage's own error propagates unchanged; filtering cannot fail, since extraction supplies the samples
    ensures FilterPitch(cfg, ExtractPitch(cfg, filepath)).Success?
    ensures var t := FilterPitch(cfg, ExtractPitch(cfg, filepath)).value;
            IdentifyTonic(cfg, t).Failure? ==> r == Failure(IdentifyTonic(cfg, t).error)
    ensures var t := FilterPitch(cfg, ExtractPitch(cfg, filepath)).value;
            (IdentifyTonic(cfg, t).Success? && ComputePitchDistribution(cfg, t, IdentifyTonic(cfg, t).value).Failure?) ==>
              r == Failure(ComputePitchDistribution(cfg, t, IdentifyTonic(cfg, t).value).error)
    ensures r.Success? ==>
      var out := cfg.stages.extract(cfg.extractor, filepath);
      var filtered := cfg.stages.filter(cfg.filter, out.pitch);
      var m := r.value;
      // the track is the extraction result with its samples filtered
      && m.pitch.Keys == out.settings.Keys + {PitchKey}
      && m.pitch[PitchKey] == filtered
      && (forall key :: key in out.settings && key != PitchKey ==> m.pitch[key] == out.settings[key])
      // the tonic is the first candidate for the filtered samples, carrying the track's source
      && SourceKey in m.tonic && ValueKey in m.tonic && SourceKey in m.pitch
      && m.tonic[SourceKey] == m.pitch[SourceKey] == out.settings[SourceKey]
      && IdentifyTonic(cfg, m.pitch) == Success(m.tonic)
      // the distributions are built from the filtered frequencies
      && m.distribution == cfg.stages.fromHzPitch(FrequencyColumn(filtered).value, m.tonic[ValueKey],
                                                  cfg.distribution[SmoothFactor], cfg.distribution[StepSize])
      && m.classDistribution == cfg.stages.toPcd(m.distribution)
  {
    match FilterPitch(cfg, ExtractPitch(cfg, filepath))
    case Failure(e) => Failure(e)
    case Success(pitch) =>
      match IdentifyTonic(cfg, pitch)
      case Failure(e) => Failure(e)
      case Success(tonic) =>
        match ComputePitchDistribution(cfg, pitch, tonic)
        case Failure(e) => Failure(e)
        case Success(pd) => Success(Measured(pitch, tonic, pd, cfg.stages.toPcd(pd)))
  }

  /**
   * The dictionary `analyze` returns, built from its seven entries; plain
   * data wherever its track, tonic, ahenk and stable notes are.
   */
  function FeatureDict(pitch: Record, tonic: Record, ahenk: Record, makam: string, pd: PitchDistribution,
                       pcd: PitchDistribution, notes: Value): (f: Record)
    ensures f.Keys == FeatureKeys
    ensures f["pitch"] == Dict(pitch) && f["tonic"] == Dict(tonic) && f["ahenk"] == Dict(ahenk)
    ensures f["makam"] == Str(makam) && f["stable_notes"] == notes
    ensures f[FeatureCodec.DistributionKey] == Distribution(pd) && f[FeatureCodec.ClassDistributionKey] == Distribution(pcd)
    ensures IsPlain(Dict(tonic)) && IsPlain(Dict(ahenk)) && IsPlain(notes) ==>
              forall key :: key in f && key !in {"pitch", FeatureCodec.DistributionKey, FeatureCodec.ClassDistributionKey} ==>
                IsPlain(f[key])
  {
    map[
      "pitch" := Dict(pitch),
      "tonic" := Dict(tonic),
      "ahenk" := Dict(ahenk),
      "makam" := Str(makam),
      "pitch_distribution" := Distribution(pd),
      "pitch_class_distribution" := Distribution(pcd),
      "stable_notes" := notes]
  }

  /** True when the track, tonic and ahenk of a feature dictionary all carry the same "source". */
  predicate SameSource(features: Record) {
    && "pitch" in features && features["pitch"].Dict? && SourceKey in features["pitch"].fields
    && "tonic" in features && features["tonic"].Dict? && SourceKey in features["tonic"].fields
    && "ahenk" in features && features["ahenk"].Dict? && SourceKey in features["ahenk"].fields
    && features["tonic"].fields[SourceKey] == features["pitch"].fields[SourceKey]
    && features["ahenk"].fields[SourceKey] == features["tonic"].fields[SourceKey]
  }

  /**
   * `analyze`: runs the stages in order and returns the seven-entry feature
   * dictionary; without a makam it raises NotImplementedError, but only once
   * the stages before the makam check have run.
   */
  function Analyze(cfg: Config, filepath: string, makam: Option<string>): (r: Result<Record, Error>)
    // errors of the earlier stages come first, whatever the makam
    ensures Measure(cfg, filepath).Failure? ==> r == Failure(Measure(cfg, filepath).error)
    ensures makam.None? && Measure(cfg, filepath).Success? ==> r == Failure(NotImplemented)
    // with a makam, the stages after the check cannot fail
    ensures makam.Some? && Measure(cfg, filepath).Success? ==> r.Success?
    ensures r.Success? ==>
      var m := Measure(cfg, filepath).value;
      && r.value.Keys == FeatureKeys
      && r.value["makam"] == Str(makam.value)
      && r.value["pitch"] == Dict(m.pitch)
      && r.value["tonic"] == Dict(m.tonic)
      && r.value[FeatureCodec.DistributionKey] == Distribution(m.distribution)
      && r.value[FeatureCodec.ClassDistributionKey] == Distribution(cfg.stages.toPcd(r.value[FeatureCodec.DistributionKey].dist))
      && r.value["stable_notes"] == cfg.stages.calculateNotes(cfg.noteModeler, m.distribution, m.tonic[ValueKey], makam.value)
      && r.value["ahenk"] == Dict(IdentifyAhenk(cfg, m.tonic, makam.value).value)
      && SameSource(r.value)
  {
    match Measure(cfg, filepath)
    case Failure(e) => Failure(e)
    case Success(m) =>
      if makam.None? then Failure(NotImplemented)
      else match (IdentifyAhenk(cfg, m.tonic, makam.value), GetStableNotes(cfg, m.distribution, m.tonic, makam.value))
      case (Failure(e), _) => Failure(e)
      case (_, Failure(e)) => Failure(e)
      case (Success(ahenk), Success(notes)) =>
        Success(FeatureDict(m.pitch, m.tonic, ahenk, makam.value, m.distribution, m.classDistribution, notes))
  }

  /**
   * True when what the external analyzers hand back is JSON-ready, apart
   * from the numpy pitch array and the distribution objects.
   */
  ghost predicate ExternalOutputsPlain(cfg: Config, filepath: string) {
    var out := cfg.stages.extract(cfg.extractor, filepath);
    var filtered := cfg.stages.filter(cfg.filter, out.pitch);
    var candidates := cfg.stages.identifyTonic(cfg.tonicIdentifier, filtered);
    && (filtered.NdArray? || IsPlain(filtered))
    && (forall key :: key in out.settings ==> IsPlain(out.settings[key]))
    && (|candidates| > 0 ==> forall key :: key in candidates[0] ==> IsPlain(candidates[0][key]))
    && (forall v, m :: forall key :: key in cfg.stages.identifyAhenk(v, m) ==> IsPlain(cfg.stages.identifyAhenk(v, m)[key]))
    && (forall nm, pd, v, m :: IsPlain(cfg.stages.calculateNotes(nm, pd, v, m)))
  }

  /** With JSON-ready analyzer outputs, every entry of the identified tonic is plain data. */
  lemma MeasuredTonicPlain(cfg: Config, filepath: string)
    requires Measure(cfg, filepath).Success?
    requires ExternalOutputsPlain(cfg, filepath)
    ensures forall key :: key in Measure(cfg, filepath).value.tonic ==> IsPlain(Measure(cfg, filepath).value.tonic[key])
  {
  }

  /** With JSON-ready analyzer outputs, the ahenk record `analyze` returns is plain data. */
  lemma AnalyzedAhenkPlain(cfg: Config, filepath: string, makam: Option<string>)
    requires Analyze(cfg, filepath, makam).Success?
    requires ExternalOutputsPlain(cfg, filepath)
    ensures IsPlain(Analyze(cfg, filepath, makam).value["ahenk"])
  {
  }

  /** A feature dictionary `analyze` returns has the shape saving expects. */
  lemma AnalyzedFeaturesWellFormed(cfg: Config, filepath: string, makam: Option<string>)
    requires Analyze(cfg, filepath, makam).Success?
    requires ExternalOutputsPlain(cfg, filepath)
    ensures FeatureCodec.WellFormed(Analyze(cfg, filepath, makam).value)
  {
    var features := Analyze(cfg, filepath, makam).value;
    var m := Measure(cfg, filepath).value;
    var ahenk := IdentifyAhenk(cfg, m.tonic, makam.value).value;
    var notes := GetStableNotes(cfg, m.distribution, m.tonic, makam.value).value;
    assert features == FeatureDict(m.pitch, m.tonic, ahenk, makam.value, m.distribution, m.classDistribution, notes);
    MeasuredTonicPlain(cfg, filepath);
    AnalyzedAhenkPlain(cfg, filepath, makam);
    assert IsPlain(Dict(m.tonic)) && IsPlain(Dict(ahenk)) && IsPlain(notes);
    var track := m.pitch;
    assert track[PitchKey].NdArray? || IsPlain(track[PitchKey]);
    forall key | key in track && key != PitchKey ensures IsPlain(track[key]) {
      assert track[key] == cfg.stages.extract(cfg.extractor, filepath).settings[key];
    }
  }

  /**
   * A feature dictionary `analyze` returns survives a save followed by a
   * load, with only the samples' container changed.
   */
  lemma AnalyzedFeaturesRoundTrip(cfg: Config, filepath: string, makam: Option<string>,
                                  toDict: PitchDistribution -> Value, fromDict: Value -> PitchDistribution)
    requires Analyze(cfg, filepath, makam).Success?
    requires ExternalOutputsPlain(cfg, filepath)
    requires forall d :: IsPlain(toDict(d))
    requires forall d :: fromDict(toDict(d)) == d
    ensures FeatureCodec.WellFormed(Analyze(cfg, filepath, makam).value)
    ensures FeatureCodec.Encode(Analyze(cfg, filepath, makam).value, toDict).Success?
    ensures FeatureCodec.LoadFeatures(Dict(FeatureCodec.Encode(Analyze(cfg, filepath, makam).value, toDict).value), fromDict)
            == Success(FeatureCodec.WithListSamples(Analyze(cfg, filepath, makam).value))
  {
    AnalyzedFeaturesWellFormed(cfg, filepath, makam);
    FeatureCodec.SaveLoadRoundTrip(Analyze(cfg, filepath, makam).value, toDict, fromDict);
  }
}
