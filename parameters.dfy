/**
 * The parameter store: each analysis stage has a group of named settings, and
 * a setter accepts a set of keyword overrides only when every keyword names an
 * existing setting (AudioAnalyzer.set_*_params).
 */
module Parameters {
  import opened Wrappers
  import opened Values

  const SmoothFactor := "smooth_factor"
  const StepSize := "step_size"

  /** The pitch-distribution group an analyzer starts with. */
  function DefaultDistributionParams(): (p: Record)
    ensures p.Keys == {SmoothFactor, StepSize}
    ensures p[SmoothFactor] == Num(7.5) && p[StepSize] == Num(7.5)
  {
    map[SmoothFactor := Num(7.5), StepSize := Num(7.5)]
  }

  /**
   * The effect of calling a setter with keyword arguments `kwargs` on a group
   * whose current settings are `group`: either the KeyError listing every
   * valid key, with nothing assigned, or the group with every supplied key
   * overwritten and every other key kept.
   */
  function Override(group: Record, kwargs: Record): (r: Result<Record, Error>)
    ensures r.Failure? <==> exists key :: key in kwargs && key !in group
    ensures r.Failure? ==> r.error == UnknownParameter(group.Keys)
    ensures r.Success? ==> r.value.Keys == group.Keys
    ensures r.Success? ==> forall key :: key in kwargs ==> r.value[key] == kwargs[key]
    ensures r.Success? ==> forall key :: key in group && key !in kwargs ==> r.value[key] == group[key]
  {
    if kwargs.Keys <= group.Keys then Success(group + kwargs) else Failure(UnknownParameter(group.Keys))
  }

  /**
   * The assignment loop of a setter: each keyword argument, in turn, is
   * written into the group.
   */
  method ApplyOverrides(group: Record, kwargs: Record) returns (updated: Record)
    ensures updated.Keys == group.Keys + kwargs.Keys
    ensures forall key :: key in updated ==> updated[key] == if key in kwargs then kwargs[key] else group[key]
  {
    updated := group;
    var pending := kwargs.Keys;
    while pending != {}
      invariant pending <= kwargs.Keys
      invariant updated.Keys == group.Keys + (kwargs.Keys - pending)
      invariant forall key :: key in updated ==>
                  updated[key] == if key in kwargs && key !in pending then kwargs[key] else group[key]
      decreases pending
    {
      var key :| key in pending;
      updated := updated[key := kwargs[key]];
      pending := pending - {key};
    }
  }

  /** Once validation has passed, the assignment loop computes exactly the successful Override. */
  lemma ApplyOverridesIsOverride(group: Record, kwargs: Record, updated: Record)
    requires kwargs.Keys <= group.Keys
    requires updated.Keys == group.Keys + kwargs.Keys
    requires forall key :: key in updated ==> updated[key] == if key in kwargs then kwargs[key] else group[key]
    ensures Override(group, kwargs) == Success(updated)
  {
    var expected := Override(group, kwargs).value;
    assert expected.Keys == updated.Keys;
    assert forall key :: key in expected ==> expected[key] == updated[key];
    assert expected == updated;
  }

  /** Overriding with the same arguments a second time changes nothing more. */
  lemma OverrideIdempotent(group: Record, kwargs: Record)
    requires Override(group, kwargs).Success?
    ensures Override(Override(group, kwargs).value, kwargs) == Override(group, kwargs)
  {
    var once := Override(group, kwargs).value;
    var twice := Override(once, kwargs);
    assert twice.Success?;
    assert twice.value.Keys == once.Keys;
    assert forall key :: key in once ==> twice.value[key] == once[key];
    assert twice.value == once;
  }
}
