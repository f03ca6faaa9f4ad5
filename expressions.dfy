/** The expression evaluator's collaborators as the processor sees them: the
    evaluation summary it fills in, and the shape of one evaluation's outcome.
    Also the substring test behind placeholder detection. */
module Expressions {
  import opened PipelineModel

  /** A snapshot of an evaluation summary: how many expressions were
      evaluated, how many failed, and the per-field failure detail in the
      rendering that is attached to a result. */
  datatype SummaryState = SummaryState(totalEvaluated: nat, failureCount: nat, expressionResult: Value)

  const EmptySummary := SummaryState(0, 0, Dict(map[]))

  /** What one call of the evaluator yields: the evaluated map and the
      summary as the evaluator leaves it. */
  datatype Evaluation = Evaluation(result: map<string, Value>, summary: SummaryState)

  /** The evaluator: (source, context, summary so far, allowUnknownKeys) to
      the evaluated map and the updated summary. */
  type Evaluator = (map<string, Value>, map<string, Value>, SummaryState, bool) -> Evaluation

  /** The summary object a caller may share across several calls. */
  class EvaluationSummary {
    var state: SummaryState

    constructor ()
      ensures state == EmptySummary
    {
      state := EmptySummary;
    }
  }

  /** String.contains: `t` occurs in `s` at some position. */
  function Contains(s: string, t: string): bool
    decreases |s|
  {
    |t| <= |s| && (s[..|t|] == t || (|s| > 0 && Contains(s[1..], t)))
  }

  /** `t` occurs in `s` starting at index `i`. */
  predicate OccursAt(s: string, t: string, i: int)
  {
    0 <= i <= |s| - |t| && s[i..i + |t|] == t
  }

  lemma {:induction false} ContainsAt(s: string, t: string)
    ensures Contains(s, t) <==> exists i :: OccursAt(s, t, i)
    decreases |s|
  {
    if |t| <= |s| && s[..|t|] == t {
      assert OccursAt(s, t, 0);
    } else if |t| <= |s| && |s| > 0 {
      ContainsAt(s[1..], t);
      if Contains(s[1..], t) {
        var i :| OccursAt(s[1..], t, i);
        assert s[i + 1..i + 1 + |t|] == s[1..][i..i + |t|];
        assert OccursAt(s, t, i + 1);
      }
      if exists i :: OccursAt(s, t, i) {
        var i :| OccursAt(s, t, i);
        assert i != 0;
        assert s[1..][i - 1..i - 1 + |t|] == s[i..i + |t|];
        assert OccursAt(s[1..], t, i - 1);
      }
    }
  }

  /** The placeholder opener `${` occurs in `s` exactly when some `$` is
      directly followed by `{`. */
  lemma ContainsOpener(s: string)
    ensures Contains(s, "${") <==> exists i :: 0 <= i < |s| - 1 && s[i] == '$' && s[i + 1] == '{'
  {
    ContainsAt(s, "${");
    if exists i :: 0 <= i < |s| - 1 && s[i] == '$' && s[i + 1] == '{' {
      var i :| 0 <= i < |s| - 1 && s[i] == '$' && s[i + 1] == '{';
      assert s[i..i + 2] == "${";
      assert OccursAt(s, "${", i);
    }
    if Contains(s, "${") {
      var i :| OccursAt(s, "${", i);
      assert s[i] == s[i..i + 2][0] && s[i + 1] == s[i..i + 2][1];
    }
  }
}
