/** The specification of context augmentation: which `parameters` value and
    which single `scmInfo` record a context ends up with, stated as functions
    of the context it had before, together with the properties promised of
    them. The processor's imperative augmentation is proved equal to
    `Augment`. */
module Augmentation {
  import opened PipelineModel

  const ParametersKey := "parameters"
  const ScmInfoKey := "scmInfo"
  const TriggerKey := "trigger"
  const BuildInfoKey := "buildInfo"

  /** The context after augmentation, and the exception that escaped, if any;
      on an exception the context keeps the writes made before it. */
  datatype Augmentation = Augmentation(context: map<string, Value>, failure: Option<Error>)

  /** The trigger a context refers to: none when the entry is absent or null,
      the object itself when it is already decoded, otherwise the decoded
      form of the raw entry (conversion may fail). */
  function ResolveTrigger(ctx: map<string, Value>, decode: Value -> Option<Trigger>): Result<Option<Trigger>, Error>
  {
    match Lookup(ctx, TriggerKey)
    case Null => Ok(None)
    case TriggerObj(t) => Ok(Some(t))
    case raw =>
      match decode(raw)
      case Some(t) => Ok(Some(t))
      case None => Err(ConversionError)
  }

  /** The `parameters` value augmentation leaves behind. */
  function DerivedParameters(ctx: map<string, Value>, trigger: Option<Trigger>): Value
  {
    if trigger.Some? && |trigger.value.parameters| > 0 then Dict(trigger.value.parameters)
    else if ParametersKey in ctx then ctx[ParametersKey]
    else Dict(map[])
  }

  /** A list of source-control records as a context value. */
  function RecordList(scm: seq<SourceControl>): (v: Value)
    ensures v.List? && |v.items| == |scm|
    ensures forall i :: 0 <= i < |scm| ==> v.items[i] == ScmObj(scm[i])
  {
    List(seq(|scm|, i requires 0 <= i < |scm| => ScmObj(scm[i])))
  }

  /** The records of a trigger's build metadata; an empty list when the
      trigger has no build metadata or the metadata's record list is null. */
  function TriggerRecords(buildInfo: Option<BuildInfo>): Value
  {
    match buildInfo
    case Some(BuildInfo(_, _, Some(scm))) => RecordList(scm)
    case _ => List([])
  }

  /** The candidate for `scmInfo`: the records of a `buildInfo` entry that
      holds build metadata (null when its record list is null), otherwise
      what `scmInfo` already holds; and when that is null, the records of a
      Jenkins or Concourse trigger. */
  function ScmCandidate(ctx: map<string, Value>, trigger: Option<Trigger>): Value
  {
    var primary :=
      match Lookup(ctx, BuildInfoKey)
      case BuildInfoObj(b) => (if b.scm.Some? then RecordList(b.scm.value) else Null)
      case _ => Lookup(ctx, ScmInfoKey);
    if !primary.Null? then primary
    else match trigger
      case Some(JenkinsTrigger(_, _, _, _, b)) => TriggerRecords(b)
      case Some(ConcourseTrigger(_, b)) => TriggerRecords(b)
      case _ => Null
  }

  /** A record whose branch is neither master nor develop (a null branch
      qualifies). */
  predicate Eligible(r: SourceControl)
  {
    r.branch != Some("master") && r.branch != Some("develop")
  }

  /** The elements are records, none of them eligible. */
  predicate IneligibleRecords(items: seq<Value>)
  {
    forall j :: 0 <= j < |items| ==> items[j].ScmObj? && !Eligible(items[j].scm)
  }

  /** The index of the first eligible record, scanning lazily from the front
      as a filtered stream does: an element that is not a record raises the
      cast (or null-dereference) exception when the scan reaches it. */
  function FindEligible(items: seq<Value>): (r: Result<Option<nat>, Error>)
    ensures r.Ok? && r.value.Some? ==>
      r.value.value < |items| && items[r.value.value].ScmObj? && Eligible(items[r.value.value].scm)
      && IneligibleRecords(items[..r.value.value])
    ensures r == Ok(None) ==> IneligibleRecords(items)
    ensures r.Err? ==>
      exists j :: (0 <= j < |items| && !items[j].ScmObj? && IneligibleRecords(items[..j])
                   && r.error == (if items[j].Null? then NullPointerError else ClassCastError))
    decreases |items|
  {
    if items == [] then Ok(None)
    else match items[0]
      case ScmObj(rec) =>
        if Eligible(rec) then Ok(Some(0))
        else
          var rest := FindEligible(items[1..]);
          assert forall k :: 0 < k <= |items| ==> items[..k] == [items[0]] + items[1..][..k - 1];
          (match rest
           case Ok(Some(i)) => Ok(Some(i + 1))
           case Ok(None) => Ok(None)
           case Err(e) => Err(e))
      case Null => Err(NullPointerError)
      case _ => Err(ClassCastError)
  }

  /** The single value `scmInfo` is replaced by: null for a null or empty
      candidate, the only element of a one-element list, and for two or more
      elements the first eligible record or else the first element. A
      non-null candidate that is not a list cannot be cast to one. */
  function Disambiguate(candidate: Value): (r: Result<Value, Error>)
    ensures candidate.Null? || candidate == List([]) ==> r == Ok(Null)
    ensures !candidate.Null? && !candidate.List? ==> r == Err(ClassCastError)
    ensures candidate.List? && |candidate.items| == 1 ==> r == Ok(candidate.items[0])
    ensures candidate.List? && |candidate.items| >= 2 && r.Ok? ==>
      r.value.ScmObj? &&
      ((Eligible(r.value.scm) && exists i :: 0 <= i < |candidate.items| && candidate.items[i] == r.value
                                             && IneligibleRecords(candidate.items[..i]))
       || (IneligibleRecords(candidate.items) && r.value == candidate.items[0]))
    ensures candidate.List? && |candidate.items| >= 2 ==>
      (r.Err? <==> FindEligible(candidate.items).Err?)
      && (r.Err? ==> r.error == FindEligible(candidate.items).error)
    ensures candidate.List? && (forall i :: 0 <= i < |candidate.items| ==> candidate.items[i].ScmObj?) ==>
      r.Ok? && (r.value.Null? || r.value.ScmObj?)
  {
    match candidate
    case Null => Ok(Null)
    case List(items) =>
      if |items| >= 2 then
        match FindEligible(items)
        case Ok(Some(i)) => Ok(items[i])
        case Ok(None) => Ok(items[0])
        case Err(e) => Err(e)
      else if |items| == 1 then Ok(items[0])
      else Ok(Null)
    case _ => Err(ClassCastError)
  }

  /** Context augmentation: resolve the trigger, derive `parameters`, write
      the `scmInfo` candidate and replace it by its disambiguated value. */
  function Augment(ctx: map<string, Value>, decode: Value -> Option<Trigger>): (a: Augmentation)
    ensures forall k :: k in ctx && k != ParametersKey && k != ScmInfoKey ==>
      k in a.context && a.context[k] == ctx[k]
    ensures a.context.Keys <= ctx.Keys + {ParametersKey, ScmInfoKey}
    ensures a.failure.None? ==> a.context.Keys == ctx.Keys + {ParametersKey, ScmInfoKey}
    ensures ResolveTrigger(ctx, decode).Err? ==> a == Augmentation(ctx, Some(ConversionError))
  {
    match ResolveTrigger(ctx, decode)
    case Err(e) => Augmentation(ctx, Some(e))
    case Ok(trigger) =>
      var candidate := ScmCandidate(ctx, trigger);
      var staged := ctx[ParametersKey := DerivedParameters(ctx, trigger)][ScmInfoKey := candidate];
      match Disambiguate(candidate)
      case Err(e) => Augmentation(staged, Some(e))
      case Ok(v) => Augmentation(staged[ScmInfoKey := v], None)
  }

  lemma AugmentSteps(ctx: map<string, Value>, decode: Value -> Option<Trigger>, trigger: Option<Trigger>)
    requires ResolveTrigger(ctx, decode) == Ok(trigger)
    ensures var staged := ctx[ParametersKey := DerivedParameters(ctx, trigger)][ScmInfoKey := ScmCandidate(ctx, trigger)];
      Augment(ctx, decode) == match Disambiguate(ScmCandidate(ctx, trigger))
        case Err(e) => Augmentation(staged, Some(e))
        case Ok(v) => Augmentation(staged[ScmInfoKey := v], None)
  {
  }

  /** Writing `parameters` does not change the `scmInfo` candidate. */
  lemma CandidateIgnoresParameters(ctx: map<string, Value>, v: Value, trigger: Option<Trigger>)
    ensures ScmCandidate(ctx[ParametersKey := v], trigger) == ScmCandidate(ctx, trigger)
  {
    assert Lookup(ctx[ParametersKey := v], BuildInfoKey) == Lookup(ctx, BuildInfoKey);
    assert Lookup(ctx[ParametersKey := v], ScmInfoKey) == Lookup(ctx, ScmInfoKey);
  }
}
