/**
 * The data side of AudioAnalyzer.plot: which stable notes are drawn on the
 * distribution panel, where, with which marker, and which frequencies become
 * the y-ticks of both panels. Drawing itself is not modelled.
 */
module NoteOverlay {
  import opened Wrappers
  import opened Values

  /** A stable note of the note model: its theoretical and measured pitch (Hz) and their distance in cents. */
  datatype StableNote = StableNote(theoreticalPitch: real, stablePitch: real, performedInterval: real)

  /** A sample of the plotted pitch track; an inaudible frequency is blanked out (numpy's NaN). */
  datatype MaskedSample = MaskedSample(time: real, freq: Option<real>)

  /** The tonic is drawn as a large diamond, every other note as a small red one. */
  datatype Marker = TonicMarker | NoteMarker

  /** What is drawn for one displayed note. */
  datatype Overlay = Overlay(
    symbol: string,
    theoreticalPitch: real, // height of the dashed line
    stablePitch: real,      // height of the marker
    relOccur: real,         // length of the dashed line and x position of the marker
    marker: Marker,
    labelX: real,           // x position of the "symbol, N cents" label
    labelCents: int)        // the N of that label

  /** The selection results of one call of `plot`. */
  datatype Figure = Figure(
    track: seq<MaskedSample>,
    timeLimits: (real, real),   // x range of the pitch-track panel
    freqLimits: (real, real),   // y range of the pitch-track panel
    overlays: seq<Overlay>,     // the displayed notes, in iteration order
    yticks: seq<real>,          // y ticks of both panels
    occurrenceLimit: real)      // upper x limit of the distribution panel

  /** Frequencies below this (Hz) are not drawn. */
  const InaudibleHz: real := 20.0

  /** A note is drawn only when its occurrence exceeds this fraction of the largest one. */
  const DisplayRatio: real := 0.1

  /** The plot's copy of the pitch track, with inaudible frequencies blanked out. */
  function MaskInaudible(samples: seq<Sample>): (track: seq<MaskedSample>)
    ensures |track| == |samples|
    ensures forall i :: 0 <= i < |samples| ==> track[i].time == samples[i].time
    ensures forall i :: 0 <= i < |samples| ==> (track[i].freq.None? <==> samples[i].freq < InaudibleHz)
    ensures forall i :: 0 <= i < |samples| && track[i].freq.Some? ==> track[i].freq.value == samples[i].freq
  {
    seq(|samples|, i requires 0 <= i < |samples| =>
      MaskedSample(samples[i].time, if samples[i].freq < InaudibleHz then None else Some(samples[i].freq)))
  }

  function Abs(x: real): real {
    if x < 0.0 then -x else x
  }

  /** The list of distances from `x` to every bin. */
  function Distances(bins: seq<real>, x: real): (d: seq<real>)
    ensures |d| == |bins| && forall i :: 0 <= i < |bins| ==> d[i] == Abs(x - bins[i])
  {
    seq(|bins|, i requires 0 <= i < |bins| => Abs(x - bins[i]))
  }

  /** `np.argmin`: the first index of a smallest element. */
  function ArgMin(d: seq<real>): (k: nat)
    requires |d| > 0
    ensures k < |d|
    ensures forall j :: 0 <= j < |d| ==> d[k] <= d[j]
    ensures forall j :: 0 <= j < k ==> d[k] < d[j]
    decreases |d|
  {
    if |d| == 1 then 0
    else
      var k := ArgMin(d[..|d| - 1]);
      if d[|d| - 1] < d[k] then |d| - 1 else k
  }

  /** The bin closest to `x`; on a tie, the first such bin. */
  function NearestBin(bins: seq<real>, x: real): (k: nat)
    requires |bins| > 0
    ensures k < |bins|
    ensures forall j :: 0 <= j < |bins| ==> Abs(x - bins[k]) <= Abs(x - bins[j])
    ensures forall j :: 0 <= j < k ==> Abs(x - bins[k]) < Abs(x - bins[j])
  {
    ArgMin(Distances(bins, x))
  }

  /** The relative occurrence of a pitch: the density at its nearest bin. */
  function RelOccur(dist: PitchDistribution, x: real): (occur: real)
    requires |dist.bins| > 0 && |dist.vals| == |dist.bins|
    ensures exists k :: 0 <= k < |dist.bins| && occur == dist.vals[k]
              && forall j :: 0 <= j < |dist.bins| ==> Abs(x - dist.bins[k]) <= Abs(x - dist.bins[j])
  {
    dist.vals[NearestBin(dist.bins, x)]
  }

  /** The relative occurrence of every note, in iteration order. */
  function RelOccurrences(dist: PitchDistribution, notes: seq<(string, StableNote)>): (rel: seq<real>)
    requires |dist.bins| > 0 && |dist.vals| == |dist.bins|
    ensures |rel| == |notes|
  {
    seq(|notes|, i requires 0 <= i < |notes| => RelOccur(dist, notes[i].1.stablePitch))
  }

  /**
   * Each note's relative occurrence is the density at a bin nearest to its
   * stable pitch, the first such bin on a tie.
   */
  lemma RelOccurrenceAtNearestBin(dist: PitchDistribution, notes: seq<(string, StableNote)>, i: nat)
    requires |dist.bins| > 0 && |dist.vals| == |dist.bins| && i < |notes|
    ensures exists k :: 0 <= k < |dist.bins| && RelOccurrences(dist, notes)[i] == dist.vals[k]
              && (forall j :: 0 <= j < |dist.bins| ==> Abs(notes[i].1.stablePitch - dist.bins[k]) <= Abs(notes[i].1.stablePitch - dist.bins[j]))
              && (forall j :: 0 <= j < k ==> Abs(notes[i].1.stablePitch - dist.bins[k]) < Abs(notes[i].1.stablePitch - dist.bins[j]))
  {
    var x := notes[i].1.stablePitch;
    var k := NearestBin(dist.bins, x);
    assert RelOccurrences(dist, notes)[i] == RelOccur(dist, x) == dist.vals[k];
  }

  /**
   * The running maximum `plot` keeps, starting from 0: at least 0, at least
   * every occurrence, and attained by one of them unless it is 0.
   */
  function PeakOccurrence(rel: seq<real>): (peak: real)
    ensures peak >= 0.0
    ensures forall i :: 0 <= i < |rel| ==> rel[i] <= peak
    ensures peak == 0.0 || exists i :: 0 <= i < |rel| && rel[i] == peak
    decreases |rel|
  {
    if |rel| == 0 then 0.0
    else
      var before := PeakOccurrence(rel[..|rel| - 1]);
      if before < rel[|rel| - 1] then rel[|rel| - 1] else before
  }

  /** The indices of the notes that clear the display threshold, in iteration order. */
  function DisplayedIndices(rel: seq<real>, peak: real): (shown: seq<nat>)
    ensures forall j :: 0 <= j < |shown| ==> shown[j] < |rel| && rel[shown[j]] > peak * DisplayRatio
    ensures forall j, k :: 0 <= j < k < |shown| ==> shown[j] < shown[k]
    decreases |rel|
  {
    if |rel| == 0 then []
    else
      var last := |rel| - 1;
      DisplayedIndices(rel[..last], peak) + (if rel[last] > peak * DisplayRatio then [last] else [])
  }

  /** Every note that clears the threshold is displayed. */
  lemma {:induction false} DisplayedIndicesComplete(rel: seq<real>, peak: real, i: nat)
    requires i < |rel| && rel[i] > peak * DisplayRatio
    ensures i in DisplayedIndices(rel, peak)
  {
    var last := |rel| - 1;
    if i < last {
      DisplayedIndicesComplete(rel[..last], peak, i);
    }
  }

  /** Python 2's `round`: to the nearest integer, halves away from zero. */
  function RoundHalfAwayFromZero(x: real): (n: int)
    ensures x >= 0.0 ==> x - 0.5 < n as real <= x + 0.5
    ensures x < 0.0 ==> x - 0.5 <= n as real < x + 0.5
  {
    if x >= 0.0 then (x + 0.5).Floor else -((-x + 0.5).Floor)
  }

  /** The largest element (`max`, `np.max`). */
  function MaxOf(s: seq<real>): (m: real)
    requires |s| > 0
    ensures exists i :: 0 <= i < |s| && s[i] == m
    ensures forall i :: 0 <= i < |s| ==> s[i] <= m
  {
    if |s| == 1 then s[0]
    else
      var rest := MaxOf(s[1..]);
      if s[0] >= rest then s[0] else rest
  }

  /** The smallest element (`np.min`). */
  function MinOf(s: seq<real>): (m: real)
    requires |s| > 0
    ensures exists i :: 0 <= i < |s| && s[i] == m
    ensures forall i :: 0 <= i < |s| ==> m <= s[i]
  {
    if |s| == 1 then s[0]
    else
      var rest := MinOf(s[1..]);
      if s[0] <= rest then s[0] else rest
  }

  /** What is drawn for a displayed note, given the largest density of the distribution. */
  function OverlayOf(symbol: string, note: StableNote, relOccur: real, maxDensity: real): (o: Overlay)
    ensures o.marker == TonicMarker <==> note.performedInterval == 0.0
    ensures o.labelCents == RoundHalfAwayFromZero(note.performedInterval)
    ensures o.symbol == symbol && o.relOccur == relOccur
    ensures o.theoreticalPitch == note.theoreticalPitch && o.stablePitch == note.stablePitch
    ensures o.labelX == relOccur + 0.03 * maxDensity
  {
    Overlay(symbol, note.theoreticalPitch, note.stablePitch, relOccur,
            if note.performedInterval == 0.0 then TonicMarker else NoteMarker,
            relOccur + 0.03 * maxDensity,
            RoundHalfAwayFromZero(note.performedInterval))
  }

  /** Extending the notes by one extends the displayed indices by that note's index, if it clears the threshold. */
  lemma DisplayedIndicesStep(rel: seq<real>, i: nat, peak: real)
    requires i < |rel|
    ensures DisplayedIndices(rel[..i + 1], peak) ==
              DisplayedIndices(rel[..i], peak) + (if rel[i] > peak * DisplayRatio then [i] else [])
  {
    assert rel[..i + 1][..i] == rel[..i];
  }

  /** Extending the notes by one extends their occurrences by that note's. */
  lemma RelOccurrencesStep(dist: PitchDistribution, notes: seq<(string, StableNote)>, i: nat)
    requires |dist.bins| > 0 && |dist.vals| == |dist.bins| && i < |notes|
    ensures RelOccurrences(dist, notes[..i + 1]) ==
              RelOccurrences(dist, notes[..i]) + [RelOccur(dist, notes[i].1.stablePitch)]
  {
  }

  /** Extending the occurrences by one updates the peak as the running maximum does. */
  lemma PeakOccurrenceStep(rel: seq<real>, occur: real)
    ensures PeakOccurrence(rel + [occur]) == if PeakOccurrence(rel) < occur then occur else PeakOccurrence(rel)
  {
  }

  /**
   * The first loop of `plot`: the relative occurrence of each note, in
   * iteration order, and their running maximum.
   */
  method AnnotateNotes(dist: PitchDistribution, notes: seq<(string, StableNote)>) returns (rel: seq<real>, peak: real)
    requires |dist.bins| > 0 && |dist.vals| == |dist.bins|
    ensures rel == RelOccurrences(dist, notes)
    ensures peak == PeakOccurrence(rel)
  {
    rel, peak := [], 0.0;
    var i := 0;
    while i < |notes|
      invariant 0 <= i <= |notes|
      invariant rel == RelOccurrences(dist, notes[..i])
      invariant peak == PeakOccurrence(rel)
    {
      var occur := dist.vals[NearestBin(dist.bins, notes[i].1.stablePitch)];
      RelOccurrencesStep(dist, notes, i);
      PeakOccurrenceStep(rel, occur);
      rel := rel + [occur];
      peak := if peak < occur then occur else peak;
      i := i + 1;
    }
    assert notes[..i] == notes;
  }

  /** True when every index in `shown` picks one of `n` notes. */
  predicate IndicesBelow(shown: seq<nat>, n: nat) {
    forall j :: 0 <= j < |shown| ==> shown[j] < n
  }

  /** The overlays of the notes at the given indices, in that order. */
  function OverlaysAt(notes: seq<(string, StableNote)>, rel: seq<real>, shown: seq<nat>, maxDensity: real): (o: seq<Overlay>)
    requires |rel| == |notes| && IndicesBelow(shown, |notes|)
    ensures |o| == |shown|
    ensures forall j :: 0 <= j < |shown| ==> o[j] == OverlayOf(notes[shown[j]].0, notes[shown[j]].1, rel[shown[j]], maxDensity)
  {
    seq(|shown|, j requires 0 <= j < |shown| => OverlayOf(notes[shown[j]].0, notes[shown[j]].1, rel[shown[j]], maxDensity))
  }

  /** The stable pitches of the notes at the given indices, in that order. */
  function TicksAt(notes: seq<(string, StableNote)>, shown: seq<nat>): (t: seq<real>)
    requires IndicesBelow(shown, |notes|)
    ensures |t| == |shown|
    ensures forall j :: 0 <= j < |shown| ==> t[j] == notes[shown[j]].1.stablePitch
  {
    seq(|shown|, j requires 0 <= j < |shown| => notes[shown[j]].1.stablePitch)
  }

  lemma OverlaysAtAppend(notes: seq<(string, StableNote)>, rel: seq<real>, shown: seq<nat>, i: nat, maxDensity: real)
    requires |rel| == |notes| && IndicesBelow(shown, |notes|) && i < |notes|
    ensures IndicesBelow(shown + [i], |notes|)
    ensures OverlaysAt(notes, rel, shown + [i], maxDensity) ==
              OverlaysAt(notes, rel, shown, maxDensity) + [OverlayOf(notes[i].0, notes[i].1, rel[i], maxDensity)]
    ensures TicksAt(notes, shown + [i]) == TicksAt(notes, shown) + [notes[i].1.stablePitch]
  {
  }

  /**
   * The second loop of `plot`: the notes whose occurrence exceeds a tenth of
   * the peak, as overlays and as y-ticks, in iteration order.
   */
  method SelectOverlays(notes: seq<(string, StableNote)>, rel: seq<real>, peak: real, maxDensity: real)
    returns (yticks: seq<real>, overlays: seq<Overlay>)
    requires |rel| == |notes|
    ensures IndicesBelow(DisplayedIndices(rel, peak), |notes|)
    ensures overlays == OverlaysAt(notes, rel, DisplayedIndices(rel, peak), maxDensity)
    ensures yticks == TicksAt(notes, DisplayedIndices(rel, peak))
  {
    yticks, overlays := [], [];
    ghost var shown: seq<nat> := [];
    var i := 0;
    while i < |notes|
      invariant 0 <= i <= |notes|
      invariant shown == DisplayedIndices(rel[..i], peak)
      invariant IndicesBelow(shown, |notes|)
      invariant overlays == OverlaysAt(notes, rel, shown, maxDensity)
      invariant yticks == TicksAt(notes, shown)
    {
      DisplayedIndicesStep(rel, i, peak);
      if rel[i] > peak * DisplayRatio {
        OverlaysAtAppend(notes, rel, shown, i, maxDensity);
        yticks := yticks + [notes[i].1.stablePitch];
        overlays := overlays + [OverlayOf(notes[i].0, notes[i].1, rel[i], maxDensity)];
        shown := shown + [i];
      }
      i := i + 1;
    }
    assert rel[..i] == rel;
  }

  /**
   * `plot`: masks the track, fixes the panel limits, computes each note's
   * relative occurrence and draws the notes that clear the threshold. It
   * fails when the track has no samples (IndexError), when the distribution
   * has no bins (ValueError from `np.min`), or when bins and densities differ
   * in length (ValueError from plotting one against the other).
   */
  method Plot(samples: seq<Sample>, dist: PitchDistribution, notes: seq<(string, StableNote)>)
    returns (r: Result<Figure, Error>)
    ensures r.Failure? <==> |samples| == 0 || |dist.bins| == 0 || |dist.vals| != |dist.bins|
    ensures |samples| == 0 ==> r == Failure(IndexError)
    ensures |samples| > 0 && r.Failure? ==> r.error == ValueError
    ensures r.Success? ==>
      var rel := RelOccurrences(dist, notes);
      var shown := DisplayedIndices(rel, PeakOccurrence(rel));
      && IndicesBelow(shown, |notes|)
      && r.value.track == MaskInaudible(samples)
      && r.value.timeLimits == (samples[0].time, samples[|samples| - 1].time)
      && r.value.freqLimits == (MinOf(dist.bins), MaxOf(dist.bins))
      && r.value.overlays == OverlaysAt(notes, rel, shown, MaxOf(dist.vals))
      && r.value.yticks == TicksAt(notes, shown)
      && r.value.occurrenceLimit == 1.2 * MaxOf(dist.vals)
  {
    if |samples| == 0 {
      return Failure(IndexError);
    }
    var track := MaskInaudible(samples);
    var timeLimits := (samples[0].time, samples[|samples| - 1].time);
    if |dist.bins| == 0 {
      return Failure(ValueError);
    }
    var freqLimits := (MinOf(dist.bins), MaxOf(dist.bins));
    if |dist.vals| != |dist.bins| {
      return Failure(ValueError);
    }
    var rel, peak := AnnotateNotes(dist, notes);
    var maxDensity := MaxOf(dist.vals);
    var yticks, overlays := SelectOverlays(notes, rel, peak, maxDensity);
    r := Success(Figure(track, timeLimits, freqLimits, overlays, yticks, 1.2 * maxDensity));
  }

  /** Whenever some note occurs at all, a note with the largest occurrence is displayed. */
  lemma PeakIsDisplayed(rel: seq<real>)
    requires PeakOccurrence(rel) > 0.0
    ensures exists i :: 0 <= i < |rel| && rel[i] == PeakOccurrence(rel) && i in DisplayedIndices(rel, PeakOccurrence(rel))
  {
  }

  /** When exactly the note at index `t` clears the threshold, each prefix displays `t` once it is reached. */
  lemma {:induction false} DisplayedOnly(rel: seq<real>, t: nat, peak: real, n: nat)
    requires t < |rel| && n <= |rel|
    requires rel[t] > peak * DisplayRatio
    requires forall i :: 0 <= i < |rel| && i != t ==> rel[i] <= peak * DisplayRatio
    ensures DisplayedIndices(rel[..n], peak) == if n > t then [t] else []
  {
    if n > 0 {
      DisplayedOnly(rel, t, peak, n - 1);
      DisplayedIndicesStep(rel, n - 1, peak);
      if n - 1 == t {
        assert DisplayedIndices(rel[..n], peak) == [] + [t];
      } else {
        assert rel[n - 1] <= peak * DisplayRatio;
      }
    }
  }

  /**
   * When only one note occurs in the distribution (all others sit where the
   * density is zero), that note is the only one displayed.
   */
  lemma OnlyOccurringNoteDisplayed(rel: seq<real>, t: nat)
    requires t < |rel| && rel[t] > 0.0
    requires forall i :: 0 <= i < |rel| && i != t ==> rel[i] == 0.0
    ensures PeakOccurrence(rel) == rel[t]
    ensures DisplayedIndices(rel, PeakOccurrence(rel)) == [t]
  {
    var peak := PeakOccurrence(rel);
    assert peak >= rel[t] > 0.0;
    var i :| 0 <= i < |rel| && rel[i] == peak;
    assert i == t;
    assert rel[t] > peak * DisplayRatio;
    DisplayedOnly(rel, t, peak, |rel|);
    assert rel[..|rel|] == rel;
  }

  /** The tonic's note gets the tonic marker exactly when it is displayed and its interval is zero. */
  lemma TonicMarkerIffZeroInterval(notes: seq<(string, StableNote)>, rel: seq<real>, peak: real, maxDensity: real, j: nat)
    requires |rel| == |notes|
    requires j < |DisplayedIndices(rel, peak)|
    ensures IndicesBelow(DisplayedIndices(rel, peak), |notes|)
    ensures var shown := DisplayedIndices(rel, peak);
      OverlaysAt(notes, rel, shown, maxDensity)[j].marker.TonicMarker? <==> notes[shown[j]].1.performedInterval == 0.0
  {
  }

  /** Bins 0, 100, 200, 300 Hz with densities 1, 5, 2, 1: a note at 104 Hz reads the density 5 of bin 100. */
  lemma RelOccurExample()
    ensures RelOccur(PitchDistribution([0.0, 100.0, 200.0, 300.0], [1.0, 5.0, 2.0, 1.0], map[]), 104.0) == 5.0
  {
    var bins := [0.0, 100.0, 200.0, 300.0];
    var k := NearestBin(bins, 104.0);
    assert Abs(104.0 - bins[k]) <= Abs(104.0 - bins[1]);
  }

  /** With a peak of 5, an occurrence of 0.4 (8%) is hidden and one of 0.6 (12%) is shown. */
  lemma ThresholdExample()
    ensures 0 !in DisplayedIndices([0.4, 0.6, 5.0], 5.0)
    ensures 1 in DisplayedIndices([0.4, 0.6, 5.0], 5.0)
  {
  }
}
