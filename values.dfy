/**
 * The dynamic Python values the analyzer passes around: dictionaries keyed by
 * strings, numbers, strings, lists, numpy pitch arrays and pitch-distribution
 * objects, and the exceptions the analyzer raises.
 */
module Values {
  import opened Wrappers

  /** One row of a pitch track: a time stamp (seconds) and a frequency (Hz). */
  datatype Sample = Sample(time: real, freq: real)

  /**
   * A Python value as the analyzer sees it. `NdArray` (a numpy array of
   * [time, frequency] rows) and `Distribution` (a PitchDistribution object)
   * are the two "rich" kinds; everything else is plain JSON-shaped data.
   */
  datatype Value =
    | Null
    | Num(x: real)
    | Str(s: string)
    | List(items: seq<Value>)
    | Dict(fields: map<string, Value>)
    | NdArray(rows: seq<Sample>)
    | Distribution(dist: PitchDistribution)

  /**
   * A pitch-distribution object: bin centres, the density at each bin, and
   * whatever other attributes (reference frequency, smoothing, step size,
   * unit) the distribution library keeps.
   */
  datatype PitchDistribution = PitchDistribution(bins: seq<real>, vals: seq<real>, attributes: map<string, Value>)

  /** A Python dict with string keys. */
  type Record = map<string, Value>

  /** The exceptions raised by the analyzer (or by the Python operations it performs). */
  datatype Error =
    | KeyError(key: string)             // a dict lookup of a missing key
    | UnknownParameter(valid: set<string>) // KeyError("Possible parameters are: ...") of a setter
    | IndexError                        // indexing past the end of a list or array
    | TypeError                         // subscripting a value that is not a dict
    | ValueError                        // a reduction over an empty array, or mismatched plot data
    | NotImplemented                    // makam recognition is not available
    | NotSerializable                   // json cannot write a numpy array or an object

  /** True when `v` holds no numpy array and no distribution object anywhere: json can write it. */
  predicate IsPlain(v: Value)
    ensures IsPlain(v) ==> !v.NdArray? && !v.Distribution?
  {
    match v
    case Null => true
    case Num(_) => true
    case Str(_) => true
    case List(items) => forall i :: 0 <= i < |items| ==> IsPlain(items[i])
    case Dict(fields) => forall k :: k in fields ==> IsPlain(fields[k])
    case NdArray(_) => false
    case Distribution(_) => false
  }

  /** The plain list-of-lists form of a pitch array, as numpy's `tolist` gives it. */
  function SamplesToList(rows: seq<Sample>): (v: Value)
    ensures v.List? && |v.items| == |rows|
    ensures forall i :: 0 <= i < |rows| ==> v.items[i] == List([Num(rows[i].time), Num(rows[i].freq)])
  {
    List(seq(|rows|, i requires 0 <= i < |rows| => List([Num(rows[i].time), Num(rows[i].freq)])))
  }

  /**
   * True when every row is a list of exactly `width` numbers: a list numpy
   * turns into a numeric array of that many columns.
   */
  predicate IsNumericTable(items: seq<Value>, width: nat) {
    forall i :: 0 <= i < |items| ==>
      items[i].List? && |items[i].items| == width && forall j :: 0 <= j < width ==> items[i].items[j].Num?
  }

  /**
   * The samples held by a pitch value, whether it is a numpy array or a plain
   * list of rows [time, frequency, ...] of one common width of at least two
   * (the melody extractor also writes a salience column).
   */
  function SampleRows(v: Value): (r: Option<seq<Sample>>)
    ensures v.NdArray? ==> r == Some(v.rows)
    ensures v.List? ==> (r.Some? <==> |v.items| == 0 || exists w :: w >= 2 && IsNumericTable(v.items, w))
    ensures v.List? && r.Some? ==> |r.value| == |v.items|
    ensures v.List? && r.Some? ==>
              forall i :: 0 <= i < |v.items| ==> r.value[i] == Sample(v.items[i].items[0].x, v.items[i].items[1].x)
    ensures !v.NdArray? && !v.List? ==> r.None?
  {
    match v
    case NdArray(rows) => Some(rows)
    case List(items) =>
      if |items| == 0 then Some([])
      else if items[0].List? && |items[0].items| >= 2 && IsNumericTable(items, |items[0].items|) then
        Some(seq(|items|, i requires 0 <= i < |items| => Sample(items[i].items[0].x, items[i].items[1].x)))
      else None
    case _ => None
  }

  /** The frequency column of a sequence of samples. */
  function Frequencies(rows: seq<Sample>): (f: seq<real>)
    ensures |f| == |rows| && forall i :: 0 <= i < |rows| ==> f[i] == rows[i].freq
  {
    seq(|rows|, i requires 0 <= i < |rows| => rows[i].freq)
  }

  /**
   * `np.array(v)[:, 1]`: the frequency column. A numpy array of shape (n, 2)
   * always has one; a list must be non-empty (numpy turns `[]` into an array
   * of shape (0,), which has no second column) and made of pairs.
   */
  function FrequencyColumn(v: Value): (r: Option<seq<real>>)
    ensures v.NdArray? ==> r == Some(Frequencies(v.rows))
    ensures r.Some? <==> SampleRows(v).Some? && (v.List? ==> |v.items| > 0)
    ensures r.Some? ==> r.value == Frequencies(SampleRows(v).value)
  {
    match SampleRows(v)
    case None => None
    case Some(rows) => if v.List? && |rows| == 0 then None else Some(Frequencies(rows))
  }

  /** Converting a numpy pitch array to its list form keeps every sample and yields plain data. */
  lemma SamplesToListRoundTrip(rows: seq<Sample>)
    ensures IsPlain(SamplesToList(rows))
    ensures SampleRows(SamplesToList(rows)) == Some(rows)
  {
    var v := SamplesToList(rows);
    forall i | 0 <= i < |rows| ensures IsPlain(v.items[i]) {
      var row := v.items[i];
      assert row == List([Num(rows[i].time), Num(rows[i].freq)]);
      assert IsPlain(row.items[0]) && IsPlain(row.items[1]);
    }
    assert IsNumericTable(v.items, 2);
    var back := SampleRows(v);
    assert back.Some?;
    assert forall i :: 0 <= i < |rows| ==> back.value[i] == rows[i];
    assert back.value == rows;
  }
}
