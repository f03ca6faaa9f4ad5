# Context parameter processor — a Dafny model

This project models the context parameter processor of a pipeline
orchestrator. The processor runs just before a stage executes. It:

- builds the map that a stage's expressions are evaluated against (the stage's
  own context plus, for a pipeline execution, the flattened trigger and the
  execution);
- augments that context in place: it derives `parameters` from the trigger and
  reduces the candidate source-control records to one `scmInfo` record;
- hands the stage's configuration to the expression evaluator;
- attaches the evaluation diagnostics (`expressionEvaluationSummary`) when any
  expression failed.

It also has a null-safe test for whether a string holds a `${` placeholder.

Layout:

- `pipeline_model.dfy` (module `PipelineModel`): the values a context holds.
  These are a JSON-like tree plus the already decoded domain objects: triggers,
  build metadata, source-control records and executions. A `MutableMap` class
  stands for a `java.util.Map` shared by reference. There are also the `Stage`
  and `StageContext` objects.
- `expressions.dfy` (module `Expressions`): the evaluation summary (a class the
  caller may share), the evaluator's type, and `String.contains`.
- `augmentation.dfy` (module `Augmentation`): the specification of augmentation
  as functions of the context before it. These are the trigger resolution, the
  `parameters` value, the `scmInfo` candidate, the lazy first-eligible scan,
  disambiguation, and `Augment`, which gives the whole resulting context and the
  exception, if any.
- `augmentation_properties.dfy` (module `AugmentationProperties`): the lemmas
  about augmentation. They cover precedence, disambiguation against a
  filter-then-first reference definition, and what re-augmenting does.
- `processor.dfy` (module `Processor`): the class `ContextParameterProcessor`.
  Its methods are imperative and are proved against the functions above:
  `PrecomputeValues` works by in-place `Put`s on the caller's map,
  `BuildExecutionContext` fills a new map, and `Process` and
  `ProcessWithSummary` use early returns and then put the summary.

The object mapper and the expression evaluator are outside the processor. They are
constructor parameters of the processor, as functions:

- `decodeTrigger` converts a raw trigger entry into a trigger, or fails;
- `flattenTrigger` converts a trigger into a plain map, or fails;
- `evaluate` maps (source, context, summary so far, allowUnknownKeys) to the
  evaluated map and the new summary.

Exceptions become `Result` values:

- `ConversionError`: the mapper rejects a shape;
- `ClassCastError`: `scmInfo` is not a list, or the branch filter reaches an
  element that is not a record;
- `NullPointerError`: the filter reaches a null element, or a non-empty source
  comes with a null context.

When an exception escapes augmentation, the context keeps the writes made before
it, as the Java code does (`PrecomputeValues`). Without build metadata, a failed
augmentation leaves `scmInfo` as it was (`FailureKeepsScmInfo`).

Three behaviours of the code worth knowing:

- A `buildInfo` entry whose build metadata has a null record list writes a
  null `scmInfo`. The Jenkins or Concourse rule only tests whether `scmInfo`
  is null, so a Jenkins or Concourse trigger still applies after a `buildInfo`
  entry whose record list is null (`TriggerRecordsAsFallback`). With any other
  trigger `scmInfo` stays null, whatever it held before (`NoRecordsGiveNull`).
  An empty record list is different: it is written as an empty list, which is
  not null, so the trigger rule is skipped and disambiguation then gives null
  (`EmptyRecordListGivesNull`).
- Augmenting an already augmented context does not always leave it as it is.
  If `scmInfo` holds one record and no build metadata is present, the cast to
  a list fails (`ReaugmentingOneRecordFails`). When `buildInfo` holds build
  metadata, augmenting again gives the same result (`ReaugmentingWithBuildInfo`).
- A one-element candidate list gives its element as it is, without a cast, so
  a one-element list holding something other than a record passes that value
  through. When the candidate is null or a list of records, `scmInfo` ends up
  null or exactly one record (`ScmInfoIsOneRecordOrNull`).

## Model

| member | source | states |
|---|---|---|
| Expressions.ContainsAt | orca-core/src/main/java/com/netflix/spinnaker/orca/pipeline/util/ContextParameterProcessor.java:119 | `Contains(s, t)` holds exactly when `t` occurs in `s` at some index (the meaning of `String.contains`) |
| Expressions.ContainsOpener | orca-core/src/main/java/com/netflix/spinnaker/orca/pipeline/util/ContextParameterProcessor.java:119 | `s` contains `"${"` exactly when some `$` in it is directly followed by `{` |
| Processor.ContextParameterProcessor.ContainsExpression | orca-core/src/main/java/com/netflix/spinnaker/orca/pipeline/util/ContextParameterProcessor.java:118-120 | true exactly when the value is non-null, non-empty and has `$` directly followed by `{` at some index |
| Processor.ExecutionContextEntries | orca-core/src/main/java/com/netflix/spinnaker/orca/pipeline/util/ContextParameterProcessor.java:104-116 | non-pipeline execution: the stage context itself; pipeline execution: the stage's keys plus `trigger` (the flattened trigger) and `execution` (the execution), all other entries unchanged; fails only when flattening fails |
| Processor.ContextParameterProcessor.BuildExecutionContext | orca-core/src/main/java/com/netflix/spinnaker/orca/pipeline/util/ContextParameterProcessor.java:104-116 | returns a newly allocated stage context, for the same stage, over a newly allocated map holding `ExecutionContextEntries`; it does not modify the stage's own context; a failed flattening is a conversion error |
| Processor.WithFailureDetail | orca-core/src/main/java/com/netflix/spinnaker/orca/pipeline/util/ContextParameterProcessor.java:97-101 | with no failures the evaluator's map is returned exactly; with failures the failure detail sits under `expressionEvaluationSummary` and every other entry is kept |
| Processor.FailureDetailAttachedIff | orca-core/src/main/java/com/netflix/spinnaker/orca/pipeline/util/ContextParameterProcessor.java:97-99 | when the evaluator's map has no such key, `expressionEvaluationSummary` is present exactly when the failure count is positive |
| Processor.ContextParameterProcessor.ProcessWithSummary | orca-core/src/main/java/com/netflix/spinnaker/orca/pipeline/util/ContextParameterProcessor.java:76-102 | a null source gives null; an empty source gives a new empty map. Neither touches the context or the summary. Otherwise the context becomes `Augment` of itself; an augmentation exception propagates without evaluating; else the summary is the evaluator's, the result is a new map holding `WithFailureDetail` of the evaluation, and the summary is logged exactly when something was evaluated and the context has `execution` |
| Processor.ContextParameterProcessor.Process | orca-core/src/main/java/com/netflix/spinnaker/orca/pipeline/util/ContextParameterProcessor.java:69-74 | the same as `ProcessWithSummary`, started from an empty summary |
| Processor.ContextParameterProcessor.PrecomputeValues | orca-core/src/main/java/com/netflix/spinnaker/orca/pipeline/util/ContextParameterProcessor.java:122-176 | the caller's map ends up exactly as `Augment` says, on success and on failure; on success the same map object is returned, otherwise the exception `Augment` reports |
| Processor.ContextParameterProcessor.ResolveTriggerEntry | orca-core/src/main/java/com/netflix/spinnaker/orca/pipeline/util/ContextParameterProcessor.java:123-129 | an absent or null entry gives no trigger, a decoded trigger is used as is, and a raw entry is decoded; a failed decoding is a conversion error |
| Processor.ContextParameterProcessor.WriteParameters | orca-core/src/main/java/com/netflix/spinnaker/orca/pipeline/util/ContextParameterProcessor.java:131-137 | the map gains exactly the `parameters` entry `DerivedParameters` gives and nothing else changes |
| Processor.ContextParameterProcessor.WriteScmCandidate | orca-core/src/main/java/com/netflix/spinnaker/orca/pipeline/util/ContextParameterProcessor.java:139-160 | only `scmInfo` may change, and afterwards it reads as the candidate `ScmCandidate` defines |
| Processor.ContextParameterProcessor.CollapseScmInfo | orca-core/src/main/java/com/netflix/spinnaker/orca/pipeline/util/ContextParameterProcessor.java:161-173 | `scmInfo` is replaced by its disambiguated value, or the cast or null-dereference failure is reported and the map left as it was |
| Augmentation.FindEligible | orca-core/src/main/java/com/netflix/spinnaker/orca/pipeline/util/ContextParameterProcessor.java:163-167 | a found index holds an eligible record and every record before it is ineligible; no index means every element is an ineligible record; a failure names the first element that is not a record, with every element before it an ineligible record |
| Augmentation.Disambiguate | orca-core/src/main/java/com/netflix/spinnaker/orca/pipeline/util/ContextParameterProcessor.java:161-173 | a null or empty candidate gives null; a non-list fails the cast; one element gives that element; two or more give the first eligible record or, when none is eligible, the first element, and fail exactly when the lazy scan reaches a non-record before any eligible record, with the scan's error; a list of records always succeeds with null or a record |
| Augmentation.Augment | orca-core/src/main/java/com/netflix/spinnaker/orca/pipeline/util/ContextParameterProcessor.java:122-176 | keys other than `parameters` and `scmInfo` keep their values and no key is added besides those two; on success both are present; a failed trigger decoding leaves the context untouched |
| AugmentationProperties.EligibleOnlyAllEligible | orca-core/src/main/java/com/netflix/spinnaker/orca/pipeline/util/ContextParameterProcessor.java:164-165 | the reference filter keeps only records whose branch is neither master nor develop, and never more records than it was given |
| AugmentationProperties.FindEligibleInRecords | orca-core/src/main/java/com/netflix/spinnaker/orca/pipeline/util/ContextParameterProcessor.java:163-167 | over a list of records the lazy scan never fails and finds the head of the eligible records, or nothing exactly when there is none |
| AugmentationProperties.DisambiguateRecords | orca-core/src/main/java/com/netflix/spinnaker/orca/pipeline/util/ContextParameterProcessor.java:161-173 | a list of records collapses to null (no record), its only record, or the first of its eligible records (filtered in order) and else its first record |
| AugmentationProperties.DisambiguateFirstEligible | orca-core/src/main/java/com/netflix/spinnaker/orca/pipeline/util/ContextParameterProcessor.java:161-173 | of two or more records, the one at the first eligible index is taken, and the first record when none is eligible |
| AugmentationProperties.DisambiguationExamples | orca-core/src/main/java/com/netflix/spinnaker/orca/pipeline/util/ContextParameterProcessor.java:161-173 | [develop, feature-x, master] gives feature-x; [master, develop] gives master; a single record gives that record |
| AugmentationProperties.ParametersPrecedence | orca-core/src/main/java/com/netflix/spinnaker/orca/pipeline/util/ContextParameterProcessor.java:131-137 | `parameters` is always written: the trigger's parameters when non-empty, else the existing entry, else an empty map |
| AugmentationProperties.BuildInfoTakesPrecedence | orca-core/src/main/java/com/netflix/spinnaker/orca/pipeline/util/ContextParameterProcessor.java:139-145 | build metadata with a non-null record list in `buildInfo`, even an empty one, decides `scmInfo` whatever the trigger and the earlier `scmInfo` |
| AugmentationProperties.TriggerRecordsAsFallback | orca-core/src/main/java/com/netflix/spinnaker/orca/pipeline/util/ContextParameterProcessor.java:147-160 | when `buildInfo` holds metadata whose record list is null, or holds none and `scmInfo` is null or absent, a Jenkins or Concourse trigger's records decide `scmInfo`; a trigger without metadata, or with a null record list, gives null |
| AugmentationProperties.NoRecordsGiveNull | orca-core/src/main/java/com/netflix/spinnaker/orca/pipeline/util/ContextParameterProcessor.java:139-160 | build metadata whose record list is null replaces any earlier `scmInfo` by null, and without metadata a null `scmInfo` stays null, unless a Jenkins or Concourse trigger supplies records |
| AugmentationProperties.EmptyRecordListGivesNull | orca-core/src/main/java/com/netflix/spinnaker/orca/pipeline/util/ContextParameterProcessor.java:139-172 | build metadata with an empty record list leaves `scmInfo` null, whatever the trigger and the earlier `scmInfo`: the empty list is not null, so the trigger rule is skipped |
| AugmentationProperties.PriorScmInfoWins | orca-core/src/main/java/com/netflix/spinnaker/orca/pipeline/util/ContextParameterProcessor.java:139-161 | without build metadata in `buildInfo`, a non-null `scmInfo` is the candidate and decides success and result |
| AugmentationProperties.FailureKeepsScmInfo | orca-core/src/main/java/com/netflix/spinnaker/orca/pipeline/util/ContextParameterProcessor.java:139-173 | without build metadata in `buildInfo`, an augmentation that fails leaves `scmInfo` as it was before, present or absent |
| AugmentationProperties.ScmInfoIsOneRecordOrNull | orca-core/src/main/java/com/netflix/spinnaker/orca/pipeline/util/ContextParameterProcessor.java:139-173 | when the candidate can only be null or records, augmentation succeeds and `scmInfo` is null or exactly one record, never a list |
| AugmentationProperties.ReaugmentingOneRecordFails | orca-core/src/main/java/com/netflix/spinnaker/orca/pipeline/util/ContextParameterProcessor.java:161 | augmenting again a context whose `scmInfo` became one record, with no build metadata, fails with a cast error |
| AugmentationProperties.ReaugmentingWithBuildInfo | orca-core/src/main/java/com/netflix/spinnaker/orca/pipeline/util/ContextParameterProcessor.java:131-145 | with build metadata in `buildInfo`, augmenting an augmented context gives the same result |

## Left out

- The object mapper's conversions (lines 110-111 and 126) are functions given to the constructor. The model does not say which maps decode to which trigger variant.
- The expression evaluator (line 91) is a function given to the constructor. Placeholder substitution, function providers and the meaning of `allowUnknownKeys` are its business. So the model does not claim that the result has the source's shape, or what the failure counts are for a given input.
- The evaluator's returned map is modelled as a newly allocated map. A map that rejects `put` (an immutable one) is not modelled.
- Logging (lines 93-95) is reduced to the `logged` result of `ProcessWithSummary`, which says whether the summary would be logged.
- The constructors, the function providers and the plugin manager (lines 51-67) are library wiring.
- A trigger's parameters are never null in the model, because the trigger classes always supply a map.
- The trigger variants keep only the fields the processor reads, plus a few identifying ones.
- Concurrent use of one processor or one context has no locking in the code, and none is modelled.
- Source-control records in build metadata are a list of records that cannot hold null, so the records a `buildInfo` entry or a trigger supplies never make the branch filter (line 165) throw. A null element is modelled only in a `scmInfo` list already in the context.
- Three references that Java allows to be null cannot be null in the model: the summary passed to `ProcessWithSummary` (Java returns before touching it when the source is null or empty), an execution's trigger (Java would put `trigger: null` at line 108), and a stage's context.
