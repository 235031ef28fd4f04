/**
 * The analyzer object: it owns the external analyzers and one parameter group
 * per stage, and its setters update those groups in place.
 */
module Analyzer {
  import opened Wrappers
  import opened Values
  import opened Parameters
  import opened Pipeline

  class AudioAnalyzer {
    /** The external analyzers; the object never replaces them. */
    const stages: Stages

    /** The settings of the pitch extractor, pitch filter, tonic identifier, distribution and note model. */
    var extractorParams: Record
    var filterParams: Record
    var tonicParams: Record
    var distributionParams: Record
    var noteModelParams: Record

    /** The distribution group always has exactly its two keys. */
    ghost predicate Valid()
      reads this
    {
      distributionParams.Keys == {SmoothFactor, StepSize}
    }

    /**
     * `__init__`: the four external analyzers come with their own default
     * settings; the distribution group starts at 7.5 / 7.5.
     */
    constructor (stages: Stages, extractorDefaults: Record, filterDefaults: Record,
                 tonicDefaults: Record, noteModelDefaults: Record)
      ensures Valid()
      ensures this.stages == stages
      ensures extractorParams == extractorDefaults && filterParams == filterDefaults
      ensures tonicParams == tonicDefaults && noteModelParams == noteModelDefaults
      ensures distributionParams == DefaultDistributionParams()
    {
      this.stages := stages;
      extractorParams := extractorDefaults;
      filterParams := filterDefaults;
      tonicParams := tonicDefaults;
      noteModelParams := noteModelDefaults;
      distributionParams := DefaultDistributionParams();
    }

    /** The settings every stage helper of `analyze` reads from the object. */
    function Configuration(): Config
      reads this
    {
      Config(stages, extractorParams, filterParams, tonicParams, distributionParams, noteModelParams)
    }

    /** `set_pitch_extractor_params` */
    method SetPitchExtractorParams(kwargs: Record) returns (r: Result<(), Error>)
      modifies this`extractorParams
      ensures r.Failure? <==> Override(old(extractorParams), kwargs).Failure?
      ensures r.Failure? ==> r.error == UnknownParameter(old(extractorParams).Keys) && extractorParams == old(extractorParams)
      ensures r.Success? ==> extractorParams == Override(old(extractorParams), kwargs).value
    {
      if !(kwargs.Keys <= extractorParams.Keys) {
        return Failure(UnknownParameter(extractorParams.Keys));
      }
      var updated := ApplyOverrides(extractorParams, kwargs);
      ApplyOverridesIsOverride(extractorParams, kwargs, updated);
      extractorParams := updated;
      r := Success(());
    }

    /** `set_pitch_filter_params` */
    method SetPitchFilterParams(kwargs: Record) returns (r: Result<(), Error>)
      modifies this`filterParams
      ensures r.Failure? <==> Override(old(filterParams), kwargs).Failure?
      ensures r.Failure? ==> r.error == UnknownParameter(old(filterParams).Keys) && filterParams == old(filterParams)
      ensures r.Success? ==> filterParams == Override(old(filterParams), kwargs).value
    {
      if !(kwargs.Keys <= filterParams.Keys) {
        return Failure(UnknownParameter(filterParams.Keys));
      }
      var updated := ApplyOverrides(filterParams, kwargs);
      ApplyOverridesIsOverride(filterParams, kwargs, updated);
      filterParams := updated;
      r := Success(());
    }

    /** `set_tonic_identifier_params` */
    method SetTonicIdentifierParams(kwargs: Record) returns (r: Result<(), Error>)
      modifies this`tonicParams
      ensures r.Failure? <==> Override(old(tonicParams), kwargs).Failure?
      ensures r.Failure? ==> r.error == UnknownParameter(old(tonicParams).Keys) && tonicParams == old(tonicParams)
      ensures r.Success? ==> tonicParams == Override(old(tonicParams), kwargs).value
    {
      if !(kwargs.Keys <= tonicParams.Keys) {
        return Failure(UnknownParameter(tonicParams.Keys));
      }
      var updated := ApplyOverrides(tonicParams, kwargs);
      ApplyOverridesIsOverride(tonicParams, kwargs, updated);
      tonicParams := updated;
      r := Success(());
    }

    /** `set_pitch_distibution_params`: keeps the group's two keys. */
    method SetPitchDistributionParams(kwargs: Record) returns (r: Result<(), Error>)
      requires Valid()
      modifies this`distributionParams
      ensures Valid()
      ensures r.Failure? <==> Override(old(distributionParams), kwargs).Failure?
      ensures r.Failure? ==> r.error == UnknownParameter({SmoothFactor, StepSize}) && distributionParams == old(distributionParams)
      ensures r.Success? ==> distributionParams == Override(old(distributionParams), kwargs).value
    {
      if !(kwargs.Keys <= distributionParams.Keys) {
        return Failure(UnknownParameter(distributionParams.Keys));
      }
      var updated := ApplyOverrides(distributionParams, kwargs);
      ApplyOverridesIsOverride(distributionParams, kwargs, updated);
      distributionParams := updated;
      r := Success(());
    }

    /** `set_note_modeler_params` */
    method SetNoteModelerParams(kwargs: Record) returns (r: Result<(), Error>)
      modifies this`noteModelParams
      ensures r.Failure? <==> Override(old(noteModelParams), kwargs).Failure?
      ensures r.Failure? ==> r.error == UnknownParameter(old(noteModelParams).Keys) && noteModelParams == old(noteModelParams)
      ensures r.Success? ==> noteModelParams == Override(old(noteModelParams), kwargs).value
    {
      if !(kwargs.Keys <= noteModelParams.Keys) {
        return Failure(UnknownParameter(noteModelParams.Keys));
      }
      var updated := ApplyOverrides(noteModelParams, kwargs);
      ApplyOverridesIsOverride(noteModelParams, kwargs, updated);
      noteModelParams := updated;
      r := Success(());
    }

    /**
     * `analyze` on this object. Because the distribution group always has
     * both of its keys, looking them up never raises.
     */
    method Analyze(filepath: string, makam: Option<string>) returns (r: Result<Record, Error>)
      requires Valid()
      ensures r == Pipeline.Analyze(Configuration(), filepath, makam)
      ensures r.Failure? ==> r.error != KeyError(SmoothFactor) && r.error != KeyError(StepSize)
    {
      r := Pipeline.Analyze(Configuration(), filepath, makam);
    }
  }
}
