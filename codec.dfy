/**
 * Saving and loading a feature dictionary (AudioAnalyzer.save_features and
 * load_features). The JSON text itself is not modelled: a saved document is
 * the plain tree json would write, and loading starts from the tree json
 * reads back.
 */
module FeatureCodec {
  import opened Wrappers
  import opened Values

  const PitchKey := "pitch"
  const DistributionKey := "pitch_distribution"
  const ClassDistributionKey := "pitch_class_distribution"

  /** Where a saved document goes: computed and dropped (no file path), or written to a file. */
  datatype Saved = Discarded | Written(path: string, document: Record)

  /** `x.to_dict()`, with the AttributeError of anything but a distribution object swallowed. */
  function DistributionToPlain(v: Value, toDict: PitchDistribution -> Value): (r: Value)
    ensures v.Distribution? ==> r == toDict(v.dist)
    ensures !v.Distribution? ==> r == v
    ensures IsPlain(v) ==> r == v
  {
    if v.Distribution? then toDict(v.dist) else v
  }

  /**
   * `x.tolist()`, with the AttributeError of anything but a numpy array
   * swallowed: an array becomes plain data holding the same samples.
   */
  function SamplesToPlain(v: Value): (r: Value)
    ensures v.NdArray? ==> IsPlain(r) && SampleRows(r) == Some(v.rows)
    ensures !v.NdArray? ==> r == v
  {
    if v.NdArray? then
      SamplesToListRoundTrip(v.rows);
      SamplesToList(v.rows)
    else v
  }

  /**
   * The track record with its samples converted, when the feature dictionary
   * has one. Subscripting a numpy array with a string raises IndexError, any
   * other non-dict value TypeError.
   */
  function PitchWithPlainSamples(pitch: Value): (r: Result<Value, Error>)
    ensures pitch.NdArray? ==> r == Failure(IndexError)
    ensures !pitch.Dict? && !pitch.NdArray? ==> r == Failure(TypeError)
    ensures pitch.Dict? && PitchKey !in pitch.fields ==> r == Failure(KeyError(PitchKey))
    ensures r.Success? <==> pitch.Dict? && PitchKey in pitch.fields
    ensures r.Success? ==> r.value.Dict? && r.value.fields.Keys == pitch.fields.Keys
    ensures r.Success? ==> r.value.fields[PitchKey] == SamplesToPlain(pitch.fields[PitchKey])
    ensures r.Success? ==> forall key :: key in pitch.fields && key != PitchKey ==> r.value.fields[key] == pitch.fields[key]
  {
    if pitch.NdArray? then Failure(IndexError)
    else if !pitch.Dict? then Failure(TypeError)
    else if PitchKey !in pitch.fields then Failure(KeyError(PitchKey))
    else Success(Dict(pitch.fields[PitchKey := SamplesToPlain(pitch.fields[PitchKey])]))
  }

  /** True when the three entries `save_features` converts are there and the track can be converted. */
  predicate Convertible(features: Record) {
    && DistributionKey in features && ClassDistributionKey in features && PitchKey in features
    && PitchWithPlainSamples(features[PitchKey]).Success?
  }

  /** The converted copy of the features: both distributions and the samples made plain. */
  function ConvertedDocument(features: Record, toDict: PitchDistribution -> Value): (doc: Record)
    requires Convertible(features)
    ensures doc.Keys == features.Keys
  {
    features[DistributionKey := DistributionToPlain(features[DistributionKey], toDict)]
            [ClassDistributionKey := DistributionToPlain(features[ClassDistributionKey], toDict)]
            [PitchKey := PitchWithPlainSamples(features[PitchKey]).value]
  }

  /**
   * The document `save_features` hands to json: both distributions as plain
   * dictionaries and the samples as a list of lists, everything else as it
   * was; or the exception raised on the way. json's TypeError for a value it
   * cannot write is NotSerializable.
   */
  function Encode(features: Record, toDict: PitchDistribution -> Value): (r: Result<Record, Error>)
    ensures DistributionKey !in features ==> r == Failure(KeyError(DistributionKey))
    ensures DistributionKey in features && ClassDistributionKey !in features ==> r == Failure(KeyError(ClassDistributionKey))
    ensures (DistributionKey in features && ClassDistributionKey in features && PitchKey !in features) ==>
              r == Failure(KeyError(PitchKey))
    ensures (DistributionKey in features && ClassDistributionKey in features && PitchKey in features
             && PitchWithPlainSamples(features[PitchKey]).Failure?) ==>
              r == Failure(PitchWithPlainSamples(features[PitchKey]).error)
    ensures r.Success? <==> Convertible(features) && IsPlain(Dict(ConvertedDocument(features, toDict)))
    ensures Convertible(features) && r.Failure? ==> r.error == NotSerializable
    ensures r.Success? ==> IsPlain(Dict(r.value))
    ensures r.Success? ==> PitchKey in features && PitchWithPlainSamples(features[PitchKey]).Success?
    ensures r.Success? ==>
      && r.value.Keys == features.Keys
      && r.value[DistributionKey] == DistributionToPlain(features[DistributionKey], toDict)
      && r.value[ClassDistributionKey] == DistributionToPlain(features[ClassDistributionKey], toDict)
      && r.value[PitchKey] == PitchWithPlainSamples(features[PitchKey]).value
      && forall key :: key in features && key !in {DistributionKey, ClassDistributionKey, PitchKey} ==>
           r.value[key] == features[key]
  {
    if DistributionKey !in features then Failure(KeyError(DistributionKey))
    else if ClassDistributionKey !in features then Failure(KeyError(ClassDistributionKey))
    else if PitchKey !in features then Failure(KeyError(PitchKey))
    else match PitchWithPlainSamples(features[PitchKey])
      case Failure(e) => Failure(e)
      case Success(_) =>
        var doc := ConvertedDocument(features, toDict);
        if IsPlain(Dict(doc)) then Success(doc) else Failure(NotSerializable)
  }

  /**
   * `save_features`: converts a copy of the features field by field, then
   * serializes it to the file, or (without a file path) serializes it and
   * drops the text.
   */
  method SaveFeatures(features: Record, filepath: Option<string>, toDict: PitchDistribution -> Value)
    returns (r: Result<Saved, Error>)
    ensures r.Failure? <==> Encode(features, toDict).Failure?
    ensures r.Failure? ==> r.error == Encode(features, toDict).error
    ensures r.Success? && filepath.None? ==> r.value == Discarded
    ensures r.Success? && filepath.Some? ==> r.value == Written(filepath.value, Encode(features, toDict).value)
  {
    var doc := features;
    if DistributionKey !in doc {
      return Failure(KeyError(DistributionKey));
    }
    doc := doc[DistributionKey := DistributionToPlain(doc[DistributionKey], toDict)];
    if ClassDistributionKey !in doc {
      return Failure(KeyError(ClassDistributionKey));
    }
    doc := doc[ClassDistributionKey := DistributionToPlain(doc[ClassDistributionKey], toDict)];
    if PitchKey !in doc {
      return Failure(KeyError(PitchKey));
    }
    var pitch := doc[PitchKey];
    if !pitch.Dict? {
      return Failure(if pitch.NdArray? then IndexError else TypeError);
    }
    if PitchKey !in pitch.fields {
      return Failure(KeyError(PitchKey));
    }
    doc := doc[PitchKey := Dict(pitch.fields[PitchKey := SamplesToPlain(pitch.fields[PitchKey])])];
    if !IsPlain(Dict(doc)) {
      return Failure(NotSerializable);
    }
    r := Success(if filepath.None? then Discarded else Written(filepath.value, doc));
  }

  /**
   * `load_features` on an already-parsed document: both distributions are
   * rebuilt with `from_dict`; every other entry, the samples included, stays
   * plain data.
   */
  function LoadFeatures(document: Value, fromDict: Value -> PitchDistribution): (r: Result<Record, Error>)
    ensures !document.Dict? ==> r == Failure(TypeError)
    ensures document.Dict? ==> (r.Success? <==> DistributionKey in document.fields && ClassDistributionKey in document.fields)
    ensures document.Dict? && DistributionKey !in document.fields ==> r == Failure(KeyError(DistributionKey))
    ensures document.Dict? && DistributionKey in document.fields && ClassDistributionKey !in document.fields ==>
              r == Failure(KeyError(ClassDistributionKey))
    ensures r.Success? ==>
      && r.value.Keys == document.fields.Keys
      && r.value[DistributionKey] == Distribution(fromDict(document.fields[DistributionKey]))
      && r.value[ClassDistributionKey] == Distribution(fromDict(document.fields[ClassDistributionKey]))
      && forall key :: key in document.fields && key != DistributionKey && key != ClassDistributionKey ==>
           r.value[key] == document.fields[key]
  {
    if !document.Dict? then Failure(TypeError)
    else
      var fields := document.fields;
      if DistributionKey !in fields then Failure(KeyError(DistributionKey))
      else
        var withDistribution := fields[DistributionKey := Distribution(fromDict(fields[DistributionKey]))];
        if ClassDistributionKey !in withDistribution then Failure(KeyError(ClassDistributionKey))
        else Success(withDistribution[ClassDistributionKey := Distribution(fromDict(withDistribution[ClassDistributionKey]))])
  }

  /**
   * A feature dictionary as `analyze` builds it, in the shape saving expects:
   * two distribution objects, a track record holding its samples, and
   * JSON-ready data everywhere else.
   */
  predicate WellFormed(features: Record) {
    && DistributionKey in features && features[DistributionKey].Distribution?
    && ClassDistributionKey in features && features[ClassDistributionKey].Distribution?
    && PitchKey in features && features[PitchKey].Dict? && PitchKey in features[PitchKey].fields
    && (features[PitchKey].fields[PitchKey].NdArray? || IsPlain(features[PitchKey].fields[PitchKey]))
    && (forall key :: key in features[PitchKey].fields && key != PitchKey ==> IsPlain(features[PitchKey].fields[key]))
    && (forall key :: key in features && key !in {DistributionKey, ClassDistributionKey, PitchKey} ==> IsPlain(features[key]))
  }

  /**
   * The features with their samples in list form: what a save followed by a
   * load gives back.
   */
  function WithListSamples(features: Record): (r: Record)
    requires WellFormed(features)
  {
    var pitch := features[PitchKey].fields;
    features[PitchKey := Dict(pitch[PitchKey := SamplesToPlain(pitch[PitchKey])])]
  }

  /**
   * Round trip: when `from_dict` inverts `to_dict` and `to_dict` yields plain
   * data, loading a saved feature dictionary gives back the same
   * distributions and every other entry unchanged; only the samples change
   * container, from a numpy array to a list of lists.
   */
  lemma {:induction false} SaveLoadRoundTrip(features: Record, toDict: PitchDistribution -> Value,
                                             fromDict: Value -> PitchDistribution)
    requires WellFormed(features)
    requires forall d :: IsPlain(toDict(d))
    requires forall d :: fromDict(toDict(d)) == d
    ensures Encode(features, toDict).Success?
    ensures LoadFeatures(Dict(Encode(features, toDict).value), fromDict) == Success(WithListSamples(features))
  {
    var pitch := features[PitchKey].fields;
    var samples := pitch[PitchKey];
    if samples.NdArray? {
      SamplesToListRoundTrip(samples.rows);
    }
    var plainPitch := PitchWithPlainSamples(features[PitchKey]).value;
    assert IsPlain(plainPitch) by {
      forall key | key in plainPitch.fields ensures IsPlain(plainPitch.fields[key]) {
        if key != PitchKey {
          assert plainPitch.fields[key] == pitch[key];
        }
      }
    }
    var doc := features[DistributionKey := DistributionToPlain(features[DistributionKey], toDict)]
                       [ClassDistributionKey := DistributionToPlain(features[ClassDistributionKey], toDict)]
                       [PitchKey := plainPitch];
    assert IsPlain(Dict(doc)) by {
      forall key | key in doc ensures IsPlain(doc[key]) {
        if key !in {DistributionKey, ClassDistributionKey, PitchKey} {
          assert doc[key] == features[key];
        }
      }
    }
    assert Encode(features, toDict) == Success(doc);
    var loaded := LoadFeatures(Dict(doc), fromDict);
    var expected := WithListSamples(features);
    assert loaded.Success?;
    assert loaded.value.Keys == expected.Keys;
    forall key | key in expected ensures loaded.value[key] == expected[key] {
      if key == DistributionKey {
        assert fromDict(toDict(features[key].dist)) == features[key].dist;
      } else if key == ClassDistributionKey {
        assert fromDict(toDict(features[key].dist)) == features[key].dist;
      }
    }
    assert loaded.value == expected;
  }

  /** The samples that come back from a round trip are the samples that were saved. */
  lemma SamplesSurviveRoundTrip(features: Record)
    requires WellFormed(features)
    ensures WithListSamples(features)[PitchKey].fields[PitchKey].List? || !features[PitchKey].fields[PitchKey].NdArray?
    ensures SampleRows(WithListSamples(features)[PitchKey].fields[PitchKey]) == SampleRows(features[PitchKey].fields[PitchKey])
  {
  }

  /**
   * Saving is idempotent: converting an already-converted document succeeds
   * and changes nothing, since every field is already plain.
   */
  lemma {:induction false} EncodeIdempotent(features: Record, toDict: PitchDistribution -> Value)
    requires Encode(features, toDict).Success?
    ensures Encode(Encode(features, toDict).value, toDict) == Encode(features, toDict)
  {
    var doc := Encode(features, toDict).value;
    assert IsPlain(doc[DistributionKey]) && IsPlain(doc[ClassDistributionKey]) && IsPlain(doc[PitchKey]);
    var pitch := doc[PitchKey].fields;
    assert IsPlain(pitch[PitchKey]);
    assert doc[PitchKey] == Dict(pitch[PitchKey := SamplesToPlain(pitch[PitchKey])]);
    assert doc[DistributionKey := DistributionToPlain(doc[DistributionKey], toDict)]
              [ClassDistributionKey := DistributionToPlain(doc[ClassDistributionKey], toDict)]
              [PitchKey := Dict(pitch[PitchKey := SamplesToPlain(pitch[PitchKey])])] == doc;
  }
}
