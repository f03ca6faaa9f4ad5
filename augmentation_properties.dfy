/** What context augmentation promises: where `parameters` comes from, which
    source of source-control records wins, that a list of records collapses
    to its first eligible record, and what happens when an augmented context
    is augmented again. */
module AugmentationProperties {
  import opened PipelineModel
  import opened Augmentation

  /** The eligible records of a list, in their original order. */
  function EligibleOnly(recs: seq<SourceControl>): seq<SourceControl>
  {
    if recs == [] then []
    else if Eligible(recs[0]) then [recs[0]] + EligibleOnly(recs[1..])
    else EligibleOnly(recs[1..])
  }

  /** Every record the filter keeps is eligible, and it keeps no more
      records than it was given. */
  lemma {:induction false} EligibleOnlyAllEligible(recs: seq<SourceControl>)
    ensures |EligibleOnly(recs)| <= |recs|
    ensures forall k :: 0 <= k < |EligibleOnly(recs)| ==> Eligible(EligibleOnly(recs)[k])
  {
    if recs != [] {
      EligibleOnlyAllEligible(recs[1..]);
    }
  }

  /** When the first `i` records are ineligible and record `i` is eligible,
      record `i` heads the eligible ones. */
  lemma {:induction false} EligibleOnlyFront(recs: seq<SourceControl>, i: nat)
    requires i < |recs| && Eligible(recs[i])
    requires forall j :: 0 <= j < i ==> !Eligible(recs[j])
    ensures |EligibleOnly(recs)| > 0 && EligibleOnly(recs)[0] == recs[i]
  {
    if i > 0 {
      EligibleOnlyFront(recs[1..], i - 1);
    }
  }

  /** No record is eligible exactly when none survives the filter. */
  lemma {:induction false} EligibleOnlyEmpty(recs: seq<SourceControl>)
    ensures EligibleOnly(recs) == [] <==> forall j :: 0 <= j < |recs| ==> !Eligible(recs[j])
  {
    if recs != [] {
      EligibleOnlyEmpty(recs[1..]);
      assert forall j :: 1 <= j < |recs| ==> recs[j] == recs[1..][j - 1];
    }
  }

  /** Over a list of records the scan never fails, and it finds the record
      that heads the eligible ones, or nothing when there is none. */
  lemma {:induction false} FindEligibleInRecords(recs: seq<SourceControl>)
    ensures var f := FindEligible(RecordList(recs).items);
            && f.Ok?
            && (f.value.None? <==> EligibleOnly(recs) == [])
            && (f.value.Some? ==> f.value.value < |recs| && EligibleOnly(recs)[0] == recs[f.value.value])
  {
    if recs != [] {
      FindEligibleInRecords(recs[1..]);
      assert RecordList(recs).items[1..] == RecordList(recs[1..]).items;
      assert RecordList(recs).items[0] == ScmObj(recs[0]);
    }
  }

  /** A list of records disambiguates as the stream pipeline reads: filter
      the eligible records and take the first, or else the first record; a
      single record is taken as it is, and no record gives null. */
  lemma DisambiguateRecords(recs: seq<SourceControl>)
    ensures Disambiguate(RecordList(recs)) == Ok(
      if |recs| == 0 then Null
      else if |recs| >= 2 && EligibleOnly(recs) != [] then ScmObj(EligibleOnly(recs)[0])
      else ScmObj(recs[0]))
  {
    FindEligibleInRecords(recs);
  }

  /** The same collapse stated by position: of two or more records, the
      first eligible one is taken, and when none is eligible the first. */
  lemma DisambiguateFirstEligible(recs: seq<SourceControl>, i: nat)
    requires 2 <= |recs|
    requires i <= |recs|
    requires forall j :: 0 <= j < i ==> !Eligible(recs[j])
    requires i < |recs| ==> Eligible(recs[i])
    ensures Disambiguate(RecordList(recs)) == Ok(ScmObj(if i < |recs| then recs[i] else recs[0]))
  {
    DisambiguateRecords(recs);
    if i < |recs| {
      EligibleOnlyFront(recs, i);
    } else {
      EligibleOnlyEmpty(recs);
    }
  }

  /** The two disambiguation examples: the first non-master, non-develop
      branch is picked; with none, the first record is. */
  lemma DisambiguationExamples(sha: Option<string>)
    ensures var develop := SourceControl(None, Some("develop"), sha);
            var feature := SourceControl(None, Some("feature-x"), sha);
            var master := SourceControl(None, Some("master"), sha);
            Disambiguate(List([ScmObj(develop), ScmObj(feature), ScmObj(master)])) == Ok(ScmObj(feature))
            && Disambiguate(List([ScmObj(master), ScmObj(develop)])) == Ok(ScmObj(master))
            && Disambiguate(List([ScmObj(master)])) == Ok(ScmObj(master))
  {
    var develop := SourceControl(None, Some("develop"), sha);
    var feature := SourceControl(None, Some("feature-x"), sha);
    var master := SourceControl(None, Some("master"), sha);
    DisambiguateRecords([develop, feature, master]);
    DisambiguateRecords([master, develop]);
    assert RecordList([develop, feature, master]) == List([ScmObj(develop), ScmObj(feature), ScmObj(master)]);
    assert RecordList([master, develop]) == List([ScmObj(master), ScmObj(develop)]);
  }

  /** `parameters` is written even when a later step fails: the trigger's
      parameters when it has some, else whatever the context held, else an
      empty map. */
  lemma ParametersPrecedence(ctx: map<string, Value>, decode: Value -> Option<Trigger>)
    requires ResolveTrigger(ctx, decode).Ok?
    ensures var t := ResolveTrigger(ctx, decode).value;
            var a := Augment(ctx, decode);
            ParametersKey in a.context
            && a.context[ParametersKey] ==
                 if t.Some? && |t.value.parameters| > 0 then Dict(t.value.parameters)
                 else if ParametersKey in ctx then ctx[ParametersKey]
                 else Dict(map[])
  {
  }

  /** A `buildInfo` entry holding build metadata with a non-null record
      list, even an empty one, decides `scmInfo`, whatever the trigger and
      whatever `scmInfo` held before. */
  lemma BuildInfoTakesPrecedence(ctx: map<string, Value>, decode: Value -> Option<Trigger>, b: BuildInfo, recs: seq<SourceControl>)
    requires ResolveTrigger(ctx, decode).Ok?
    requires Lookup(ctx, BuildInfoKey) == BuildInfoObj(b) && b.scm == Some(recs)
    ensures var a := Augment(ctx, decode);
            a.failure.None? && Disambiguate(RecordList(recs)) == Ok(a.context[ScmInfoKey])
  {
    DisambiguateRecords(recs);
  }

  /** A Jenkins or Concourse trigger supplies the records when no earlier
      source did: either `buildInfo` holds metadata whose record list is
      null, or it holds no metadata and `scmInfo` is null or absent. A
      trigger without build metadata, or with a null record list, yields
      null. */
  lemma TriggerRecordsAsFallback(ctx: map<string, Value>, decode: Value -> Option<Trigger>, t: Trigger)
    requires ResolveTrigger(ctx, decode) == Ok(Some(t))
    requires t.JenkinsTrigger? || t.ConcourseTrigger?
    requires match Lookup(ctx, BuildInfoKey)
             case BuildInfoObj(b) => b.scm.None?
             case _ => Lookup(ctx, ScmInfoKey).Null?
    ensures var a := Augment(ctx, decode);
            a.failure.None?
            && a.context[ScmInfoKey] == match t.buildInfo
                                        case Some(BuildInfo(_, _, Some(recs))) => Disambiguate(RecordList(recs)).value
                                        case _ => Null
  {
    match t.buildInfo
    case Some(BuildInfo(_, _, Some(recs))) => DisambiguateRecords(recs);
    case _ =>
  }

  /** With no records from any source, `scmInfo` ends up null: build metadata
      in `buildInfo` whose record list is null replaces whatever `scmInfo`
      held, and without metadata a null `scmInfo` stays null, as long as the
      trigger is neither a Jenkins nor a Concourse trigger. */
  lemma NoRecordsGiveNull(ctx: map<string, Value>, decode: Value -> Option<Trigger>)
    requires ResolveTrigger(ctx, decode).Ok?
    requires var t := ResolveTrigger(ctx, decode).value;
             !(t.Some? && (t.value.JenkinsTrigger? || t.value.ConcourseTrigger?))
    requires match Lookup(ctx, BuildInfoKey)
             case BuildInfoObj(b) => b.scm.None?
             case _ => Lookup(ctx, ScmInfoKey).Null?
    ensures var a := Augment(ctx, decode);
            a.failure.None? && ScmInfoKey in a.context && a.context[ScmInfoKey] == Null
  {
  }

  /** An empty record list is not null: it blocks the trigger rule, and
      `scmInfo` ends up null even when a Jenkins or Concourse trigger has
      records of its own. */
  lemma EmptyRecordListGivesNull(ctx: map<string, Value>, decode: Value -> Option<Trigger>, b: BuildInfo)
    requires ResolveTrigger(ctx, decode).Ok?
    requires Lookup(ctx, BuildInfoKey) == BuildInfoObj(b) && b.scm == Some([])
    ensures var a := Augment(ctx, decode);
            a.failure.None? && ScmInfoKey in a.context && a.context[ScmInfoKey] == Null
  {
  }

  /** Without build metadata in `buildInfo`, a non-null `scmInfo` is the
      candidate, and the trigger is not consulted. */
  lemma PriorScmInfoWins(ctx: map<string, Value>, decode: Value -> Option<Trigger>)
    requires ResolveTrigger(ctx, decode).Ok?
    requires !Lookup(ctx, BuildInfoKey).BuildInfoObj? && !Lookup(ctx, ScmInfoKey).Null?
    ensures var a := Augment(ctx, decode);
            a.failure.None? <==> Disambiguate(ctx[ScmInfoKey]).Ok?
    ensures var a := Augment(ctx, decode);
            a.failure.None? ==> Disambiguate(ctx[ScmInfoKey]) == Ok(a.context[ScmInfoKey])
  {
  }

  /** Without build metadata in `buildInfo`, a failed augmentation leaves
      `scmInfo` as it was: only a non-null earlier value can make the scan
      fail, and the failure happens before `scmInfo` is overwritten. */
  lemma FailureKeepsScmInfo(ctx: map<string, Value>, decode: Value -> Option<Trigger>)
    requires !Lookup(ctx, BuildInfoKey).BuildInfoObj?
    requires Augment(ctx, decode).failure.Some?
    ensures Lookup(Augment(ctx, decode).context, ScmInfoKey) == Lookup(ctx, ScmInfoKey)
  {
    match ResolveTrigger(ctx, decode)
    case Err(_) =>
    case Ok(t) =>
      match t
      case Some(JenkinsTrigger(_, _, _, _, Some(BuildInfo(_, _, Some(recs))))) => DisambiguateRecords(recs);
      case Some(ConcourseTrigger(_, Some(BuildInfo(_, _, Some(recs))))) => DisambiguateRecords(recs);
      case _ =>
  }

  /** When the candidate can only be null or a list of records, augmentation
      succeeds and leaves `scmInfo` null or exactly one record. */
  lemma ScmInfoIsOneRecordOrNull(ctx: map<string, Value>, decode: Value -> Option<Trigger>)
    requires ResolveTrigger(ctx, decode).Ok?
    requires Lookup(ctx, BuildInfoKey).BuildInfoObj? || Lookup(ctx, ScmInfoKey).Null?
             || (Lookup(ctx, ScmInfoKey).List?
                 && forall i :: 0 <= i < |Lookup(ctx, ScmInfoKey).items| ==> Lookup(ctx, ScmInfoKey).items[i].ScmObj?)
    ensures var a := Augment(ctx, decode);
            a.failure.None? && (a.context[ScmInfoKey].Null? || a.context[ScmInfoKey].ScmObj?)
  {
  }

  /** Augmentation is not idempotent: once `scmInfo` holds a single record
      and no build metadata is present, augmenting again casts that record
      to a list and fails. */
  lemma {:induction false} ReaugmentingOneRecordFails(ctx: map<string, Value>, decode: Value -> Option<Trigger>)
    requires !Lookup(ctx, BuildInfoKey).BuildInfoObj?
    requires Augment(ctx, decode).failure.None?
    requires Augment(ctx, decode).context[ScmInfoKey].ScmObj?
    ensures Augment(Augment(ctx, decode).context, decode).failure == Some(ClassCastError)
  {
    var a := Augment(ctx, decode).context;
    assert Lookup(a, TriggerKey) == Lookup(ctx, TriggerKey);
    assert Lookup(a, BuildInfoKey) == Lookup(ctx, BuildInfoKey);
  }

  /** With build metadata in `buildInfo`, augmenting an augmented context
      changes nothing. */
  lemma {:induction false} ReaugmentingWithBuildInfo(ctx: map<string, Value>, decode: Value -> Option<Trigger>)
    requires Lookup(ctx, BuildInfoKey).BuildInfoObj?
    requires Augment(ctx, decode).failure.None?
    ensures Augment(Augment(ctx, decode).context, decode) == Augment(ctx, decode)
  {
    var a := Augment(ctx, decode).context;
    assert Lookup(a, TriggerKey) == Lookup(ctx, TriggerKey);
    assert Lookup(a, BuildInfoKey) == Lookup(ctx, BuildInfoKey);
    var t := ResolveTrigger(ctx, decode).value;
    assert ResolveTrigger(a, decode) == ResolveTrigger(ctx, decode);
    assert DerivedParameters(a, t) == a[ParametersKey];
    assert ScmCandidate(a, t) == ScmCandidate(ctx, t);
    var staged := a[ParametersKey := DerivedParameters(a, t)][ScmInfoKey := ScmCandidate(a, t)];
    assert staged[ScmInfoKey := a[ScmInfoKey]] == a;
  }
}
