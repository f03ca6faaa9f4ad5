/** The context parameter processor: placeholder detection, the per-stage
    evaluation context, in-place augmentation of a context, and the
    processing entry points that delegate to the expression evaluator. */
module Processor {
  import opened PipelineModel
  import opened Expressions
  import opened Augmentation

  const SummaryResultKey := "expressionEvaluationSummary"
  const ExecutionKey := "execution"

  /** The evaluated map as it is returned: the evaluator's map, with the
      failure detail attached under `expressionEvaluationSummary` when the
      summary records at least one failure. */
  function WithFailureDetail(result: map<string, Value>, summary: SummaryState): (r: map<string, Value>)
    ensures summary.failureCount == 0 ==> r == result
    ensures summary.failureCount > 0 ==>
      r.Keys == result.Keys + {SummaryResultKey} && r[SummaryResultKey] == summary.expressionResult
    ensures forall k :: k in result && k != SummaryResultKey ==> k in r && r[k] == result[k]
  {
    if summary.failureCount > 0 then result[SummaryResultKey := summary.expressionResult] else result
  }

  /** When the evaluator's map has no entry of that name, the entry is
      present exactly when some failure was recorded. */
  lemma FailureDetailAttachedIff(result: map<string, Value>, summary: SummaryState)
    requires SummaryResultKey !in result
    ensures SummaryResultKey in WithFailureDetail(result, summary) <==> summary.failureCount > 0
  {
  }

  /** The map a stage's expressions are evaluated against: a copy of the
      stage's context, in which a pipeline execution's flattened trigger and
      the execution itself replace the `trigger` and `execution` entries.
      Flattening the trigger may fail. */
  function ExecutionContextEntries(stageContext: map<string, Value>, execution: Execution,
                                   flatten: Trigger -> Option<map<string, Value>>): (r: Result<map<string, Value>, Error>)
    ensures execution.kind != Pipeline ==> r == Ok(stageContext)
    ensures execution.kind == Pipeline ==> (r.Err? <==> flatten(execution.trigger).None?)
    ensures execution.kind == Pipeline && r.Ok? ==>
      && r.value.Keys == stageContext.Keys + {TriggerKey, ExecutionKey}
      && r.value[TriggerKey] == Dict(flatten(execution.trigger).value)
      && r.value[ExecutionKey] == ExecutionObj(execution)
      && forall k :: k in stageContext && k != TriggerKey && k != ExecutionKey ==> r.value[k] == stageContext[k]
    ensures r.Err? ==> r.error == ConversionError
  {
    if execution.kind == Pipeline then
      match flatten(execution.trigger)
      case None => Err(ConversionError)
      case Some(flat) => Ok(stageContext[TriggerKey := Dict(flat)][ExecutionKey := ExecutionObj(execution)])
    else Ok(stageContext)
  }

  /** Two maps that agree except at `k`, where the first has an entry, are
      the second with the first's entry at `k`. */
  lemma SameOutsideKey(m: map<string, Value>, n: map<string, Value>, k: string)
    requires m - {k} == n - {k} && k in m
    ensures m == n[k := m[k]]
  {
    forall x | x != k ensures (x in m <==> x in n) && (x in m ==> m[x] == n[x]) {
      assert (x in m <==> x in m - {k}) && (x in n <==> x in n - {k});
      if x in m {
        assert m[x] == (m - {k})[x] && n[x] == (n - {k})[x];
      }
    }
  }

  class ContextParameterProcessor {
    /** The object mapper's conversion of a raw trigger entry into a trigger. */
    const decodeTrigger: Value -> Option<Trigger>
    /** The object mapper's conversion of a trigger into a plain map. */
    const flattenTrigger: Trigger -> Option<map<string, Value>>
    /** The pipeline expression evaluator. */
    const evaluate: Evaluator

    constructor (decodeTrigger: Value -> Option<Trigger>, flattenTrigger: Trigger -> Option<map<string, Value>>,
                 evaluate: Evaluator)
      ensures this.decodeTrigger == decodeTrigger && this.flattenTrigger == flattenTrigger
      ensures this.evaluate == evaluate
    {
      this.decodeTrigger := decodeTrigger;
      this.flattenTrigger := flattenTrigger;
      this.evaluate := evaluate;
    }

    /** A string contains an expression when it is non-null, non-empty and
        has the placeholder opener `${` somewhere in it. */
    static function ContainsExpression(value: Option<string>): (r: bool)
      ensures r <==> value.Some? && |value.value| > 0
                     && exists i :: 0 <= i < |value.value| - 1 && value.value[i] == '$' && value.value[i + 1] == '{'
    {
      match value
      case None => false
      case Some(s) =>
        ContainsOpener(s);
        |s| > 0 && Contains(s, "${")
    }

    /** Builds a stage's evaluation context in a new map, leaving the stage's
        own context untouched. */
    method BuildExecutionContext(stage: Stage) returns (r: Result<StageContext, Error>)
      ensures r.Ok? <==> ExecutionContextEntries(stage.context.entries, stage.execution, flattenTrigger).Ok?
      ensures r.Ok? ==>
        && fresh(r.value) && fresh(r.value.context) && r.value.stage == stage
        && r.value.context.entries == ExecutionContextEntries(stage.context.entries, stage.execution, flattenTrigger).value
      ensures r.Err? ==> r.error == ConversionError
    {
      var augmentedContext := new MutableMap(map[]);
      augmentedContext.PutAll(stage.context);
      if stage.execution.kind == Pipeline {
        var flat := flattenTrigger(stage.execution.trigger);
        if flat.None? {
          return Err(ConversionError);
        }
        augmentedContext.Put(TriggerKey, Dict(flat.value));
        augmentedContext.Put(ExecutionKey, ExecutionObj(stage.execution));
      }
      var stageContext := new StageContext(stage, augmentedContext);
      return Ok(stageContext);
    }

    /** Augments `context` in place and returns that same map. */
    method PrecomputeValues(context: MutableMap) returns (r: Result<MutableMap, Error>)
      modifies context
      ensures context.entries == Augment(old(context.entries), decodeTrigger).context
      ensures r == match Augment(old(context.entries), decodeTrigger).failure
                   case None => Ok(context)
                   case Some(e) => Err(e)
    {
      ghost var before := context.entries;
      var resolved := ResolveTriggerEntry(context);
      if resolved.Err? {
        return Err(resolved.error);
      }
      var trigger := resolved.value;
      WriteParameters(context, trigger);
      ghost var withParameters := context.entries;
      WriteScmCandidate(context, trigger);
      assert context.entries - {ScmInfoKey} == withParameters - {ScmInfoKey};
      ghost var candidate := ScmCandidate(before, trigger);
      ghost var staged := withParameters[ScmInfoKey := candidate];
      ghost var candidateWritten := context.entries;
      CandidateIgnoresParameters(before, DerivedParameters(before, trigger), trigger);
      ghost var collapsed := Disambiguate(candidate);
      AugmentSteps(before, decodeTrigger, trigger);
      var failure := CollapseScmInfo(context);
      if failure.Some? {
        SameOutsideKey(candidateWritten, withParameters, ScmInfoKey);
        assert collapsed == Err(failure.value) && context.entries == staged;
        return Err(failure.value);
      }
      SameOutsideKey(context.entries, candidateWritten, ScmInfoKey);
      SameOutsideKey(context.entries, withParameters, ScmInfoKey);
      assert collapsed == Ok(context.entries[ScmInfoKey]);
      assert context.entries == staged[ScmInfoKey := collapsed.value];
      return Ok(context);
    }

    /** The trigger the context refers to, decoding a raw entry. */
    method ResolveTriggerEntry(context: MutableMap) returns (r: Result<Option<Trigger>, Error>)
      ensures r == ResolveTrigger(context.entries, decodeTrigger)
    {
      var rawTrigger := context.Get(TriggerKey);
      if rawTrigger != Null && !rawTrigger.TriggerObj? {
        var decoded := decodeTrigger(rawTrigger);
        if decoded.None? {
          return Err(ConversionError);
        }
        return Ok(decoded);
      }
      return Ok(if rawTrigger.TriggerObj? then Some(rawTrigger.trigger) else None);
    }

    /** Puts the trigger's parameters when it has some, and otherwise an empty
        map when the context has no `parameters` entry. */
    method WriteParameters(context: MutableMap, trigger: Option<Trigger>)
      modifies context
      ensures context.entries == old(context.entries)[ParametersKey := DerivedParameters(old(context.entries), trigger)]
    {
      if trigger.Some? && |trigger.value.parameters| > 0 {
        context.Put(ParametersKey, Dict(trigger.value.parameters));
      } else if !context.ContainsKey(ParametersKey) {
        context.Put(ParametersKey, Dict(map[]));
      }
    }

    /** Puts the `scmInfo` candidate: the records of build metadata held in
        `buildInfo`, and then, while `scmInfo` is still null, those of a
        Jenkins or Concourse trigger. */
    method WriteScmCandidate(context: MutableMap, trigger: Option<Trigger>)
      modifies context
      ensures context.entries - {ScmInfoKey} == old(context.entries) - {ScmInfoKey}
      ensures Lookup(context.entries, ScmInfoKey) == ScmCandidate(old(context.entries), trigger)
    {
      var buildInfo := context.Get(BuildInfoKey);
      if buildInfo.BuildInfoObj? {
        context.Put(ScmInfoKey, if buildInfo.buildInfo.scm.Some? then RecordList(buildInfo.buildInfo.scm.value) else Null);
      }
      if context.Get(ScmInfoKey) == Null && trigger.Some? && trigger.value.JenkinsTrigger? {
        context.Put(ScmInfoKey, TriggerRecords(trigger.value.buildInfo));
      }
      if context.Get(ScmInfoKey) == Null && trigger.Some? && trigger.value.ConcourseTrigger? {
        context.Put(ScmInfoKey, TriggerRecords(trigger.value.buildInfo));
      }
    }

    /** Replaces the `scmInfo` candidate by a single value; a failed cast
        leaves the context as it was. */
    method CollapseScmInfo(context: MutableMap) returns (failure: Option<Error>)
      modifies context
      ensures match Disambiguate(Lookup(old(context.entries), ScmInfoKey))
              case Err(e) => failure == Some(e) && context.entries == old(context.entries)
              case Ok(v) => failure == None && context.entries == old(context.entries)[ScmInfoKey := v]
    {
      var scmInfo := context.Get(ScmInfoKey);
      if scmInfo != Null && !scmInfo.List? {
        return Some(ClassCastError);
      }
      if scmInfo != Null && |scmInfo.items| >= 2 {
        var found := FindEligible(scmInfo.items);
        match found {
          case Err(e) =>
            return Some(e);
          case Ok(Some(i)) =>
            context.Put(ScmInfoKey, scmInfo.items[i]);
          case Ok(None) =>
            context.Put(ScmInfoKey, scmInfo.items[0]);
        }
      } else if scmInfo != Null && |scmInfo.items| > 0 {
        context.Put(ScmInfoKey, scmInfo.items[0]);
      } else {
        context.Put(ScmInfoKey, Null);
      }
      return None;
    }

    /** Evaluates `source` against `context` with `summary` collecting the
        diagnostics: null passes through, an empty source gives a new empty
        map, and otherwise the context is augmented in place, the evaluator
        runs, and the failure detail is attached when there were failures.
        `logged` says whether the summary is logged. */
    method ProcessWithSummary(source: MutableMap?, context: MutableMap?, allowUnknownKeys: bool,
                              summary: EvaluationSummary)
      returns (r: Result<MutableMap?, Error>, logged: bool)
      modifies context, summary
      ensures source == null ==> r == Ok(null) && !logged && unchanged(summary) && (context != null ==> unchanged(context))
      ensures source != null && old(source.entries) == map[] ==>
        && r.Ok? && r.value != null && fresh(r.value) && r.value.entries == map[]
        && !logged && unchanged(summary) && (context != null ==> unchanged(context))
      ensures source != null && old(source.entries) != map[] && context == null ==>
        r == Err(NullPointerError) && !logged && unchanged(summary)
      ensures source != null && old(source.entries) != map[] && context != null ==>
        var a := Augment(old(context.entries), decodeTrigger);
        && context.entries == a.context
        && (a.failure.Some? ==> r == Err(a.failure.value) && !logged && unchanged(summary))
        && (a.failure.None? ==>
              var input := if source == context then a.context else old(source.entries);
              var ev := evaluate(input, a.context, old(summary.state), allowUnknownKeys);
              && summary.state == ev.summary
              && r.Ok? && r.value != null && fresh(r.value)
              && r.value.entries == WithFailureDetail(ev.result, ev.summary)
              && logged == (ev.summary.totalEvaluated > 0 && ExecutionKey in a.context))
    {
      if source == null {
        return Ok(null), false;
      }
      if source.IsEmpty() {
        var empty := new MutableMap(map[]);
        return Ok(empty), false;
      }
      if context == null {
        return Err(NullPointerError), false;
      }
      var augmented := PrecomputeValues(context);
      if augmented.Err? {
        return Err(augmented.error), false;
      }
      var ev := evaluate(source.entries, augmented.value.entries, summary.state, allowUnknownKeys);
      summary.state := ev.summary;
      var result := new MutableMap(ev.result);

      logged := summary.state.totalEvaluated > 0 && context.ContainsKey(ExecutionKey);

      if summary.state.failureCount > 0 {
        result.Put(SummaryResultKey, summary.state.expressionResult);
      }
      return Ok(result), logged;
    }

    /** Evaluates `source` against `context` with a fresh summary. */
    method Process(source: MutableMap?, context: MutableMap?, allowUnknownKeys: bool)
      returns (r: Result<MutableMap?, Error>)
      modifies context
      ensures source == null ==> r == Ok(null) && (context != null ==> unchanged(context))
      ensures source != null && old(source.entries) == map[] ==>
        r.Ok? && r.value != null && fresh(r.value) && r.value.entries == map[]
        && (context != null ==> unchanged(context))
      ensures source != null && old(source.entries) != map[] && context == null ==> r == Err(NullPointerError)
      ensures source != null && old(source.entries) != map[] && context != null ==>
        var a := Augment(old(context.entries), decodeTrigger);
        && context.entries == a.context
        && (a.failure.Some? ==> r == Err(a.failure.value))
        && (a.failure.None? ==>
              var input := if source == context then a.context else old(source.entries);
              var ev := evaluate(input, a.context, EmptySummary, allowUnknownKeys);
              && r.Ok? && r.value != null && fresh(r.value)
              && r.value.entries == WithFailureDetail(ev.result, ev.summary))
    {
      var summary := new EvaluationSummary();
      var logged;
      r, logged := ProcessWithSummary(source, context, allowUnknownKeys, summary);
    }
  }
}
