/** The self-improvement loop (backend/services/improvement_loop.py):
    precondition checks, baseline and candidate evaluation, choice of the
    best candidate, the three-clause promotion guardrail, and the commit
    of a promoted candidate. The language model's answers reach it as the
    `Generation`s of every row; the candidates come from
    `generate_candidates` as input pairs. */
module ImprovementLoop {
  import opened Wrappers
  import opened Json
  import opened Metrics
  import opened Tables
  import Evaluation

  // ---------------------------------------------------------------------
  // get_avg_score
  // ---------------------------------------------------------------------

  function Sum(values: seq<real>): real {
    if values == [] then 0.0 else Sum(values[..|values| - 1]) + values[|values| - 1]
  }

  lemma {:induction false} SumBounds(values: seq<real>)
    requires forall i :: 0 <= i < |values| ==> 0.0 <= values[i] <= 1.0
    ensures 0.0 <= Sum(values) <= |values| as real
    decreases |values|
  {
    if values != [] {
      SumBounds(values[..|values| - 1]);
    }
  }

  /** `get_avg_score`: the mean of the values, 0.0 for none. */
  function AvgScore(values: seq<real>): (r: real)
    ensures |values| == 0 ==> r == 0.0
    ensures |values| > 0 ==> r * |values| as real == Sum(values)
  {
    if |values| == 0 then 0.0 else Sum(values) / |values| as real
  }

  /** The mean of values in [0, 1] lies in [0, 1]. */
  lemma AvgScoreInUnitRange(values: seq<real>)
    requires forall i :: 0 <= i < |values| ==> 0.0 <= values[i] <= 1.0
    ensures 0.0 <= AvgScore(values) <= 1.0
  {
    if |values| > 0 {
      SumBounds(values);
      var n := |values| as real;
      assert Sum(values) / n <= n / n;
    }
  }

  /** On a score record the average is the mean of the four metrics, and
      the difference of two averages is the average of the deltas. */
  lemma AvgScoreOfScores(s: Scores, b: Scores)
    ensures AvgScore(s.Values()) == (s.correctness + s.formatAdherence + s.clarity + s.verbosity) / 4.0
    ensures AvgScore(s.Values()) - AvgScore(b.Values()) == AvgScore(s.Minus(b).Values())
  {
    SumOfFour(s.correctness, s.formatAdherence, s.clarity, s.verbosity);
    SumOfFour(b.correctness, b.formatAdherence, b.clarity, b.verbosity);
    var d := s.Minus(b);
    SumOfFour(d.correctness, d.formatAdherence, d.clarity, d.verbosity);
  }

  lemma SumOfFour(a: real, b: real, c: real, d: real)
    ensures Sum([a, b, c, d]) == a + b + c + d
    ensures AvgScore([a, b, c, d]) == (a + b + c + d) / 4.0
  {
    assert [a, b, c, d][..3] == [a, b, c];
    assert [a, b, c][..2] == [a, b];
    assert [a, b][..1] == [a];
    assert [a][..0] == [];
    assert Sum([a]) == a;
    assert Sum([a, b]) == a + b;
    assert Sum([a, b, c]) == a + b + c;
    assert Sum([a, b, c, d]) == a + b + c + d;
    assert |[a, b, c, d]| == 4;
  }

  // ---------------------------------------------------------------------
  // Candidate evaluation and selection
  // ---------------------------------------------------------------------

  /** An entry of `candidate_results`. */
  datatype CandidateResult = CandidateResult(content: string, rationale: string, scores: Scores)

  /** `cand_avg - baseline_avg`. */
  function Improvement(c: CandidateResult, baselineAvg: real): real {
    AvgScore(c.scores.Values()) - baselineAvg
  }

  /** The value `best_improvement` starts from. */
  const NoImprovement: real := -1.0

  /** The selection loop: the strictly greatest improvement wins, ties
      keep the earliest candidate, and a candidate is chosen only when
      its improvement exceeds -1.0. */
  method SelectBest(results: seq<CandidateResult>, baselineAvg: real) returns (best: Option<nat>, bestImprovement: real)
    ensures best.None? ==> bestImprovement == NoImprovement
    ensures best.None? <==> forall i :: 0 <= i < |results| ==> Improvement(results[i], baselineAvg) <= NoImprovement
    ensures best.Some? ==> best.value < |results| && bestImprovement == Improvement(results[best.value], baselineAvg)
    ensures forall i :: 0 <= i < |results| ==> Improvement(results[i], baselineAvg) <= bestImprovement
    ensures best.Some? ==> forall i :: 0 <= i < best.value ==> Improvement(results[i], baselineAvg) < bestImprovement
  {
    best := None;
    bestImprovement := NoImprovement;
    for i := 0 to |results|
      invariant best.None? ==> bestImprovement == NoImprovement
      invariant best.None? <==> forall k :: 0 <= k < i ==> Improvement(results[k], baselineAvg) <= NoImprovement
      invariant best.Some? ==> best.value < i && bestImprovement == Improvement(results[best.value], baselineAvg)
      invariant forall k :: 0 <= k < i ==> Improvement(results[k], baselineAvg) <= bestImprovement
      invariant best.Some? ==> forall k :: 0 <= k < best.value ==> Improvement(results[k], baselineAvg) < bestImprovement
    {
      var improvement := Improvement(results[i], baselineAvg);
      if improvement > bestImprovement {
        bestImprovement := improvement;
        best := Some(i);
      }
    }
  }

  // ---------------------------------------------------------------------
  // The promotion guardrail
  // ---------------------------------------------------------------------

  const ImprovementThreshold: real := 0.05
  const FormatRegressionTolerance: real := 0.02
  const FormatFloor: real := 0.9

  /** The clause that rejected the best candidate (`rejection_reason`). */
  datatype Rejection =
    | BelowThreshold(improvement: real)
    | FormatRegression
    | FormatBelowFloor(formatAdherence: real)

  /** `should_promote` and `rejection_reason` (None is the empty reason). */
  datatype Verdict = Verdict(shouldPromote: bool, rejection: Option<Rejection>)

  /** The guardrail: its clauses are checked in order and the first that
      fails names the reason. */
  function Guardrail(best: Option<CandidateResult>, bestImprovement: real, baseline: Scores): (v: Verdict)
    ensures best.None? ==> v == Verdict(false, None)
    ensures v.shouldPromote <==>
              && best.Some?
              && bestImprovement >= ImprovementThreshold
              && best.value.scores.formatAdherence >= baseline.formatAdherence - FormatRegressionTolerance
              && best.value.scores.formatAdherence >= FormatFloor
    ensures v.shouldPromote <==> best.Some? && v.rejection.None?
    ensures v.rejection == Some(BelowThreshold(bestImprovement)) <==> best.Some? && bestImprovement < ImprovementThreshold
    ensures v.rejection == Some(FormatRegression) <==>
              && best.Some? && bestImprovement >= ImprovementThreshold
              && best.value.scores.formatAdherence < baseline.formatAdherence - FormatRegressionTolerance
    ensures best.Some? && v.rejection.Some? && v.rejection.value.FormatBelowFloor? <==>
              && best.Some? && bestImprovement >= ImprovementThreshold
              && best.value.scores.formatAdherence >= baseline.formatAdherence - FormatRegressionTolerance
              && best.value.scores.formatAdherence < FormatFloor
  {
    match best
    case None => Verdict(false, None)
    case Some(c) =>
      if bestImprovement < ImprovementThreshold then Verdict(false, Some(BelowThreshold(bestImprovement)))
      else if c.scores.formatAdherence < baseline.formatAdherence - FormatRegressionTolerance then
        Verdict(false, Some(FormatRegression))
      else if c.scores.formatAdherence < FormatFloor then
        Verdict(false, Some(FormatBelowFloor(c.scores.formatAdherence)))
      else Verdict(true, None)
  }

  /** A candidate ten points better in correctness and eight points worse in
      format adherence, all else equal, improves the four-metric average
      by only half a point, so the threshold clause rejects it before the
      regression clause is reached. */
  lemma CorrectnessGainWithFormatLossMissesThreshold(clarity: real, verbosity: real)
    ensures var baseline := Scores(0.8, 0.95, clarity, verbosity);
            var c := CandidateResult("candidate", "why", Scores(0.9, 0.87, clarity, verbosity));
            var improvement := Improvement(c, AvgScore(baseline.Values()));
            improvement == 0.005
            && Guardrail(Some(c), improvement, baseline) == Verdict(false, Some(BelowThreshold(0.005)))
  {
    var baseline := Scores(0.8, 0.95, clarity, verbosity);
    var c := CandidateResult("candidate", "why", Scores(0.9, 0.87, clarity, verbosity));
    AvgScoreOfScores(c.scores, baseline);
    AvgScoreOfScores(baseline, c.scores);
    assert AvgScore(c.scores.Values()) == (0.9 + 0.87 + clarity + verbosity) / 4.0;
    assert AvgScore(baseline.Values()) == (0.8 + 0.95 + clarity + verbosity) / 4.0;
  }

  /** The regression clause is reached once the average gain clears the
      threshold: forty points of correctness against eight of format. */
  lemma FormatRegressionRejected(clarity: real, verbosity: real)
    ensures var baseline := Scores(0.5, 0.95, clarity, verbosity);
            var c := CandidateResult("candidate", "why", Scores(0.9, 0.87, clarity, verbosity));
            Guardrail(Some(c), Improvement(c, AvgScore(baseline.Values())), baseline) == Verdict(false, Some(FormatRegression))
  {
    var baseline := Scores(0.5, 0.95, clarity, verbosity);
    var c := CandidateResult("candidate", "why", Scores(0.9, 0.87, clarity, verbosity));
    AvgScoreOfScores(c.scores, baseline);
    AvgScoreOfScores(baseline, c.scores);
    assert AvgScore(c.scores.Values()) == (0.9 + 0.87 + clarity + verbosity) / 4.0;
    assert AvgScore(baseline.Values()) == (0.5 + 0.95 + clarity + verbosity) / 4.0;
  }

  // ---------------------------------------------------------------------
  // The commit
  // ---------------------------------------------------------------------

  /** The version table after auto-promotion: the new version, already
      active and numbered `number`, is appended, then the old active
      version is deactivated by id. */
  function AutoPromoted(vs: seq<VersionRow>, pid: nat, active: nat, number: int,
                        content: string, generationMethod: string, rationale: string): seq<VersionRow>
  {
    var row := VersionRow(pid, number, content, Some(active), Some(generationMethod), Some(rationale), true);
    WithFlag(vs + [row], active, false)
  }

  /** As written, the new number is the active version's number plus one. */
  function AutoPromotedNumber(vs: seq<VersionRow>, active: nat): int
    requires active < |vs|
  {
    vs[active].version + 1
  }

  /** Auto-promotion leaves the new version the prompt's only active one
      when the old active version was the only one. */
  lemma AutoPromoteKeepsSingleActive(vs: seq<VersionRow>, pid: nat, active: nat, number: int,
                                     content: string, generationMethod: string, rationale: string)
    requires AtMostOneActive(vs)
    requires ActiveVersion(vs, pid) == Some(active)
    ensures var after := AutoPromoted(vs, pid, active, number, content, generationMethod, rationale);
            && AtMostOneActive(after)
            && ActiveVersion(after, pid) == Some(|vs|)
            && OnlyFlagsChanged(vs, after[..|vs|])
  {
    var after := AutoPromoted(vs, pid, active, number, content, generationMethod, rationale);
    assert after[|vs|].isActive && after[|vs|].promptId == pid;
    forall i | 0 <= i < |vs| && after[i].promptId == pid
      ensures !after[i].isActive
    {
      if i != active {
        assert after[i] == vs[i];
        assert vs[active].isActive && vs[active].promptId == vs[i].promptId;
      }
    }
    assert ActiveVersion(after, pid).Some?;
    forall i, j | 0 <= i < j < |after| && after[i].promptId == after[j].promptId
      ensures !(after[i].isActive && after[j].isActive)
    {
      if j < |vs| && i != active && j != active {
        assert after[i] == vs[i] && after[j] == vs[j];
      }
    }
  }

  /** The version numbers of one prompt can repeat: when a newer, inactive
      version exists beside the active one, the promoted version takes its
      number. */
  lemma AutoPromoteNumberCollides()
    ensures var vs := [VersionRow(0, 1, "first", None, None, None, true),
                       VersionRow(0, 2, "draft", Some(0), None, None, false)];
            && UniqueNumbers(vs) && AtMostOneActive(vs)
            && !UniqueNumbers(AutoPromoted(vs, 0, 0, AutoPromotedNumber(vs, 0), "better", "meta_prompting", "why"))
  {
    var vs := [VersionRow(0, 1, "first", None, None, None, true),
               VersionRow(0, 2, "draft", Some(0), None, None, false)];
    var after := AutoPromoted(vs, 0, 0, AutoPromotedNumber(vs, 0), "better", "meta_prompting", "why");
    assert after[1].version == after[2].version && after[1].promptId == after[2].promptId;
  }

  /** Numbered as the other endpoints number versions (greatest number plus
      one), auto-promotion keeps the numbers unique. */
  lemma AutoPromoteWithNextNumberKeepsUnique(vs: seq<VersionRow>, pid: nat, active: nat,
                                             content: string, generationMethod: string, rationale: string)
    requires UniqueNumbers(vs)
    ensures UniqueNumbers(AutoPromoted(vs, pid, active, NextVersionNumber(vs, pid), content, generationMethod, rationale))
  {
    var row := VersionRow(pid, NextVersionNumber(vs, pid), content, Some(active), Some(generationMethod), Some(rationale), true);
    AppendFreshNumberKeepsUnique(vs, row);
    var after := AutoPromoted(vs, pid, active, NextVersionNumber(vs, pid), content, generationMethod, rationale);
    assert forall i :: 0 <= i < |after| ==> after[i].version == (vs + [row])[i].version && after[i].promptId == (vs + [row])[i].promptId;
  }

  // ---------------------------------------------------------------------
  // run_improvement_loop
  // ---------------------------------------------------------------------

  datatype LoopError =
    | NoActiveVersion
    | PromptNotFound
    | NoSamples
    | EvaluationFailed(cause: Evaluation.EvalError)

  /** The dict the loop returns. */
  datatype ImprovementResult = ImprovementResult(
    baselineScores: Scores,
    bestCandidate: Option<CandidateResult>,
    bestImprovement: real,
    shouldPromote: bool,
    rejection: Option<Rejection>,
    candidatesEvaluated: nat)

  /** The ids of the sample rows of dataset `did`, ascending. */
  function SampleIds(rows: seq<SampleRow>, did: nat): (ids: seq<nat>)
    ensures forall k :: 0 <= k < |ids| ==> ids[k] < |rows| && rows[ids[k]].datasetId == did
    ensures forall j, k :: 0 <= j < k < |ids| ==> ids[j] < ids[k]
    ensures forall i :: 0 <= i < |rows| && rows[i].datasetId == did ==> i in ids
  {
    if rows == [] then []
    else
      var n := |rows| - 1;
      var rest := SampleIds(rows[..n], did);
      assert forall k :: 0 <= k < |rest| ==> rows[..n][rest[k]] == rows[rest[k]];
      if rows[n].datasetId == did then rest + [n] else rest
  }

  /** `.eq("dataset_id", d)` on `dataset_samples`, in id order: the input
      and expected output of each of the dataset's rows. */
  function SamplesOf(rows: seq<SampleRow>, did: nat): (r: seq<Evaluation.Sample>)
    ensures |r| == |SampleIds(rows, did)|
    ensures forall k :: 0 <= k < |r| ==>
              var i := SampleIds(rows, did)[k];
              r[k] == Evaluation.Sample(rows[i].input, rows[i].expectedOutput)
    ensures |r| == 0 <==> forall i :: 0 <= i < |rows| ==> rows[i].datasetId != did
  {
    var ids := SampleIds(rows, did);
    assert ids == [] <== forall i :: 0 <= i < |rows| ==> rows[i].datasetId != did by {
      if ids != [] {
        assert rows[ids[0]].datasetId == did;
      }
    }
    seq(|ids|, k requires 0 <= k < |ids| => Evaluation.Sample(rows[ids[k]].input, rows[ids[k]].expectedOutput))
  }

  /** The aggregate scores of `template` on samples whose inputs are all
      dicts, scored by exact match, sample `i` answered by `gens(i)`. */
  function RunScores(env: Evaluation.Env, template: string, samples: seq<Evaluation.Sample>, schema: Option<Json>,
                     gens: nat -> Evaluation.Generation): (s: Scores)
    requires Evaluation.AllDicts(samples)
    ensures s.InUnitRange()
  {
    Evaluation.FullRun(env, template, samples, schema, Evaluation.ExactMatch, gens).value.aggregateScores
  }

  /** The aggregate scores of each generated candidate's own evaluation,
      in order, candidate `k` answered by `candidateGen(k)`. */
  function CandidateScores(env: Evaluation.Env, samples: seq<Evaluation.Sample>, schema: Option<Json>,
                           generated: seq<(string, string)>, candidateGen: nat -> nat -> Evaluation.Generation)
    : (s: seq<Scores>)
    requires Evaluation.AllDicts(samples)
    ensures |s| == |generated|
    ensures forall k :: 0 <= k < |s| ==> s[k].InUnitRange()
  {
    if generated == [] then []
    else
      var n := |generated| - 1;
      CandidateScores(env, samples, schema, generated[..n], candidateGen) +
        [RunScores(env, generated[n].0, samples, schema, candidateGen(n))]
  }

  /** Each candidate paired, in order, with its scores. */
  function Tagged(generated: seq<(string, string)>, scores: seq<Scores>): (r: seq<CandidateResult>)
    requires |scores| == |generated|
    ensures |r| == |generated|
  {
    if generated == [] then []
    else
      var n := |generated| - 1;
      Tagged(generated[..n], scores[..n]) + [CandidateResult(generated[n].0, generated[n].1, scores[n])]
  }

  /** Result `k` is candidate `k` with scores `k`. */
  lemma {:induction false} TaggedKeepsCandidates(generated: seq<(string, string)>, scores: seq<Scores>)
    requires |scores| == |generated|
    ensures forall k :: 0 <= k < |generated| ==>
              Tagged(generated, scores)[k] == CandidateResult(generated[k].0, generated[k].1, scores[k])
    decreases |generated|
  {
    if generated != [] {
      var n := |generated| - 1;
      TaggedKeepsCandidates(generated[..n], scores[..n]);
    }
  }

  /** Evaluating one more candidate appends its scores. */
  lemma CandidateScoresStep(env: Evaluation.Env, samples: seq<Evaluation.Sample>, schema: Option<Json>,
                            generated: seq<(string, string)>, candidateGen: nat -> nat -> Evaluation.Generation, k: nat)
    requires Evaluation.AllDicts(samples) && k < |generated|
    ensures CandidateScores(env, samples, schema, generated[..k + 1], candidateGen)
         == CandidateScores(env, samples, schema, generated[..k], candidateGen)
            + [RunScores(env, generated[k].0, samples, schema, candidateGen(k))]
  {
    assert generated[..k + 1][..k] == generated[..k];
  }

  /** Pairing one more candidate appends its result. */
  lemma TaggedStep(generated: seq<(string, string)>, scores: seq<Scores>, k: nat, next: Scores)
    requires k < |generated| && |scores| == k
    ensures Tagged(generated[..k + 1], scores + [next])
         == Tagged(generated[..k], scores) + [CandidateResult(generated[k].0, generated[k].1, next)]
  {
    assert generated[..k + 1][..k] == generated[..k];
    assert (scores + [next])[..k] == scores;
  }

  /** `candidate_results`: each generated candidate, in order, with the
      scores of its own evaluation. */
  function CandidateResults(env: Evaluation.Env, samples: seq<Evaluation.Sample>, schema: Option<Json>,
                            generated: seq<(string, string)>, candidateGen: nat -> nat -> Evaluation.Generation)
    : (r: seq<CandidateResult>)
    requires Evaluation.AllDicts(samples)
    ensures |r| == |generated|
  {
    Tagged(generated, CandidateScores(env, samples, schema, generated, candidateGen))
  }

  /** One evaluation by exact match, as the loop runs it for the baseline
      and for each candidate: its aggregate scores. */
  method EvaluatePrompt(env: Evaluation.Env, template: string, samples: seq<Evaluation.Sample>, schema: Option<Json>,
                        gens: nat -> Evaluation.Generation) returns (r: Result<Scores, Evaluation.EvalError>)
    ensures r.Err? <==> !Evaluation.AllDicts(samples)
    ensures r.Ok? ==> r.value == RunScores(env, template, samples, schema, gens)
  {
    var run := Evaluation.RunFullEvaluation(env, template, samples, schema, Evaluation.ExactMatch, gens);
    if run.Err? {
      return Err(run.error);
    }
    return Ok(run.value.aggregateScores);
  }

  /** The candidate loop: one result per candidate, in order, carrying the
      aggregate scores of its evaluation. */
  method EvaluateCandidates(env: Evaluation.Env, samples: seq<Evaluation.Sample>, schema: Option<Json>,
                            generated: seq<(string, string)>, candidateGen: nat -> nat -> Evaluation.Generation)
    returns (r: Result<seq<CandidateResult>, Evaluation.EvalError>)
    ensures r.Err? <==> |generated| > 0 && !Evaluation.AllDicts(samples)
    ensures r.Ok? ==> |r.value| == |generated|
    ensures r.Ok? && Evaluation.AllDicts(samples) ==>
              r.value == CandidateResults(env, samples, schema, generated, candidateGen)
  {
    var results: seq<CandidateResult> := [];
    ghost var scored: seq<Scores> := [];
    for k := 0 to |generated|
      invariant k > 0 ==> Evaluation.AllDicts(samples)
      invariant |scored| == k && |results| == k
      invariant Evaluation.AllDicts(samples) ==> scored == CandidateScores(env, samples, schema, generated[..k], candidateGen)
      invariant results == Tagged(generated[..k], scored)
    {
      var scores := EvaluatePrompt(env, generated[k].0, samples, schema, candidateGen(k));
      if scores.Err? {
        return Err(scores.error);
      }
      CandidateScoresStep(env, samples, schema, generated, candidateGen, k);
      TaggedStep(generated, scored, k, scores.value);
      results := results + [CandidateResult(generated[k].0, generated[k].1, scores.value)];
      scored := scored + [scores.value];
    }
    assert generated[..|generated|] == generated;
    return Ok(results);
  }

  /** The outcome of the selection loop over `results`: the strictly
      greatest improvement over `baselineAvg`, the earliest candidate on
      ties, and no candidate when none improves by more than -1.0. */
  predicate BestChoice(results: seq<CandidateResult>, baselineAvg: real, best: Option<CandidateResult>, bestImprovement: real) {
    && (best.None? <==> forall i :: 0 <= i < |results| ==> Improvement(results[i], baselineAvg) <= NoImprovement)
    && (best.None? ==> bestImprovement == NoImprovement)
    && (forall i :: 0 <= i < |results| ==> Improvement(results[i], baselineAvg) <= bestImprovement)
    && (best.Some? ==>
          exists k :: 0 <= k < |results| && results[k] == best.value
                      && bestImprovement == Improvement(results[k], baselineAvg)
                      && forall i :: 0 <= i < k ==> Improvement(results[i], baselineAvg) < bestImprovement)
  }

  /** Steps 4 to 8 of `run_improvement_loop`: the baseline evaluation of
      the active version's content, the candidate evaluations, the choice
      of the best candidate and the guardrail's verdict. */
  method Assess(env: Evaluation.Env, activeContent: string, samples: seq<Evaluation.Sample>, schema: Option<Json>,
                baselineGen: nat -> Evaluation.Generation,
                generated: seq<(string, string)>, candidateGen: nat -> nat -> Evaluation.Generation)
    returns (r: Result<ImprovementResult, LoopError>)
    ensures r.Err? <==> !Evaluation.AllDicts(samples)
    ensures r.Err? ==> r.error == EvaluationFailed(Evaluation.InputNotADict)
    ensures r.Ok? ==>
              && Evaluation.AllDicts(samples)
              && r.value.baselineScores == RunScores(env, activeContent, samples, schema, baselineGen)
              && BestChoice(CandidateResults(env, samples, schema, generated, candidateGen),
                            AvgScore(r.value.baselineScores.Values()), r.value.bestCandidate, r.value.bestImprovement)
              && Verdict(r.value.shouldPromote, r.value.rejection)
                   == Guardrail(r.value.bestCandidate, r.value.bestImprovement, r.value.baselineScores)
              && r.value.candidatesEvaluated == |generated|
  {
    // 4. the baseline evaluation
    var baselineRun := EvaluatePrompt(env, activeContent, samples, schema, baselineGen);
    if baselineRun.Err? {
      return Err(EvaluationFailed(baselineRun.error));
    }
    var baseline := baselineRun.value;

    // 5.-6. the candidates and their evaluations
    var evaluated := EvaluateCandidates(env, samples, schema, generated, candidateGen);
    if evaluated.Err? {
      // the baseline run has already accepted every input
      assert false;
      return Err(EvaluationFailed(Evaluation.InputNotADict));
    }
    var candidateResults := evaluated.value;

    // 7. the best candidate
    var bestIndex, bestImprovement := SelectBest(candidateResults, AvgScore(baseline.Values()));
    var best := if bestIndex.Some? then Some(candidateResults[bestIndex.value]) else None;
    assert BestChoice(candidateResults, AvgScore(baseline.Values()), best, bestImprovement) by {
      if bestIndex.Some? {
        var k := bestIndex.value;
        assert candidateResults[k] == best.value;
      }
    }

    // 8. the guardrail
    var verdict := Guardrail(best, bestImprovement, baseline);
    return Ok(ImprovementResult(baseline, best, bestImprovement, verdict.shouldPromote, verdict.rejection,
                                |candidateResults|));
  }

  /** `run_improvement_loop`. */
  method RunImprovementLoop(db: Database, pid: nat, did: nat, autoPromote: bool, generationMethod: string,
                            env: Evaluation.Env, baselineGen: nat -> Evaluation.Generation,
                            generated: seq<(string, string)>, candidateGen: nat -> nat -> Evaluation.Generation)
    returns (r: Result<ImprovementResult, LoopError>)
    modifies db`versions, db`candidates, db`history
    ensures old(db.Valid()) ==> db.Valid()
    ensures r == Err(NoActiveVersion) <==> ActiveVersion(old(db.versions), pid).None?
    ensures r == Err(PromptNotFound) <==> ActiveVersion(old(db.versions), pid).Some? && pid >= |db.prompts|
    ensures r == Err(NoSamples) <==>
              ActiveVersion(old(db.versions), pid).Some? && pid < |db.prompts| && SamplesOf(db.samples, did) == []
    ensures r.Err? && r.error.EvaluationFailed? <==>
              && ActiveVersion(old(db.versions), pid).Some? && pid < |db.prompts| && SamplesOf(db.samples, did) != []
              && !Evaluation.AllDicts(SamplesOf(db.samples, did))
    ensures r.Ok? ==>
              && ActiveVersion(old(db.versions), pid).Some? && pid < |db.prompts|
              && Evaluation.AllDicts(SamplesOf(db.samples, did))
              && var samples := SamplesOf(db.samples, did);
                 var schema := db.prompts[pid].outputSchema;
                 && r.value.baselineScores ==
                      RunScores(env, old(db.versions)[ActiveVersion(old(db.versions), pid).value].content,
                                samples, schema, baselineGen)
                 && BestChoice(CandidateResults(env, samples, schema, generated, candidateGen),
                               AvgScore(r.value.baselineScores.Values()), r.value.bestCandidate, r.value.bestImprovement)
    ensures r.Err? || !r.value.shouldPromote ==>
              db.versions == old(db.versions) && db.candidates == old(db.candidates) && db.history == old(db.history)
    ensures r.Ok? ==> r.value.candidatesEvaluated == |generated|
    ensures r.Ok? ==> (r.value.bestCandidate.None? ==> !r.value.shouldPromote && r.value.rejection.None?)
    ensures r.Ok? ==>
              Verdict(r.value.shouldPromote, r.value.rejection)
                == Guardrail(r.value.bestCandidate, r.value.bestImprovement, r.value.baselineScores)
    ensures r.Ok? ==>
              (r.value.shouldPromote <==>
                 r.value.bestCandidate.Some? && r.value.bestImprovement >= ImprovementThreshold
                 && r.value.bestCandidate.value.scores.formatAdherence >= r.value.baselineScores.formatAdherence - FormatRegressionTolerance
                 && r.value.bestCandidate.value.scores.formatAdherence >= FormatFloor)
    ensures r.Ok? && r.value.shouldPromote ==>
              var active := ActiveVersion(old(db.versions), pid).value;
              var best := r.value.bestCandidate.value;
              && db.candidates == old(db.candidates) +
                   [CandidateRow(pid, active, best.content, generationMethod, best.rationale,
                                 if autoPromote then Promoted else Pending)]
              && (!autoPromote ==> db.versions == old(db.versions) && db.history == old(db.history))
              && (autoPromote ==>
                    && db.versions == AutoPromoted(old(db.versions), pid, active, AutoPromotedNumber(old(db.versions), active),
                                                   best.content, generationMethod, best.rationale)
                    && db.history == old(db.history) +
                         [HistoryRow(pid, active, |old(db.versions)|, "Auto-promoted: " + best.rationale,
                                     Some(best.scores.Minus(r.value.baselineScores)), "system")])
  {
    // 1.-3. the preconditions, in order
    var activeId := ActiveVersion(db.versions, pid);
    if activeId.None? {
      return Err(NoActiveVersion);
    }
    var active := activeId.value;
    if pid >= |db.prompts| {
      return Err(PromptNotFound);
    }
    var prompt := db.prompts[pid];
    var samples := SamplesOf(db.samples, did);
    if samples == [] {
      return Err(NoSamples);
    }
    var activeRow := db.versions[active];

    // 4.-8. the evaluations, the choice and the verdict
    r := Assess(env, activeRow.content, samples, prompt.outputSchema, baselineGen, generated, candidateGen);
    if r.Err? {
      return;
    }
    var assessed := r.value;

    // 9. the commit
    if assessed.shouldPromote {
      Commit(db, pid, active, assessed.bestCandidate.value, generationMethod, autoPromote, assessed.baselineScores);
    }
  }

  /** The writes of a promotion: the candidate row, and with
      `auto_promote` the new active version, the deactivation of the old
      one and the history row. Inserts into existing prompts and versions
      succeed. */
  method Commit(db: Database, pid: nat, active: nat, c: CandidateResult, generationMethod: string,
                autoPromote: bool, baseline: Scores)
    requires active < |db.versions|
    modifies db`versions, db`candidates, db`history
    ensures old(db.Valid()) && pid < |db.prompts| ==> db.Valid()
    ensures db.candidates == old(db.candidates) +
              [CandidateRow(pid, active, c.content, generationMethod, c.rationale,
                            if autoPromote then Promoted else Pending)]
    ensures !autoPromote ==> db.versions == old(db.versions) && db.history == old(db.history)
    ensures autoPromote ==>
              && db.versions == AutoPromoted(old(db.versions), pid, active, AutoPromotedNumber(old(db.versions), active),
                                             c.content, generationMethod, c.rationale)
              && db.history == old(db.history) +
                   [HistoryRow(pid, active, |old(db.versions)|, "Auto-promoted: " + c.rationale,
                               Some(c.scores.Minus(baseline)), "system")]
  {
    db.candidates := db.candidates + [CandidateRow(pid, active, c.content, generationMethod, c.rationale,
                                                   if autoPromote then Promoted else Pending)];
    if autoPromote {
      var newId := |db.versions|;
      db.versions := AutoPromoted(db.versions, pid, active, AutoPromotedNumber(db.versions, active),
                                  c.content, generationMethod, c.rationale);
      db.history := db.history + [HistoryRow(pid, active, newId, "Auto-promoted: " + c.rationale,
                                             Some(c.scores.Minus(baseline)), "system")];
    }
  }
}
