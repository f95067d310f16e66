/** The evaluation endpoints (backend/routers/evaluations.py): creating an
    evaluation record, and the background task that runs it, moves its
    status from "processing" to "completed" or "failed", and stores the
    per-row results. The clock is the parameter `now`; the model's replies
    for the rows are `gens`. */
module Evaluations {
  import opened Wrappers
  import opened Json
  import opened Metrics
  import opened Tables
  import Evaluation
  import ImprovementLoop

  /** `create_evaluation`: the request's fields, status "processing" and
      the start time; the database rejects the insert when the version or
      the dataset does not exist. */
  method CreateEvaluation(db: Database, promptVersionId: nat, datasetId: nat,
                          variableMapping: Option<map<string, string>>, strategy: Option<string>, now: string)
    returns (r: Result<nat, ApiError>)
    requires db.Valid()
    modifies db`evaluations
    ensures db.Valid()
    ensures r.Err? <==> promptVersionId >= |db.versions| || datasetId >= |db.datasets|
    ensures r.Err? ==> db.evaluations == old(db.evaluations)
    ensures r.Ok? ==>
              && r.value == |old(db.evaluations)|
              && db.evaluations == old(db.evaluations) +
                   [EvaluationRow(promptVersionId, datasetId, variableMapping, strategy, Processing, None, Some(now), None)]
  {
    if promptVersionId >= |db.versions| || datasetId >= |db.datasets| {
      return Err(InsertFailed("evaluations"));
    }
    r := Ok(|db.evaluations|);
    db.evaluations := db.evaluations +
      [EvaluationRow(promptVersionId, datasetId, variableMapping, strategy, Processing, None, Some(now), None)];
  }

  // ---------------------------------------------------------------------
  // Status transitions
  // ---------------------------------------------------------------------

  /** The "failed" update: status and completion time; the scores stay. */
  function MarkedFailed(e: EvaluationRow, now: string): (f: EvaluationRow)
    ensures f.status == Failed && f.completedAt == Some(now)
    ensures f.(status := e.status, completedAt := e.completedAt) == e
  {
    e.(status := Failed, completedAt := Some(now))
  }

  /** The "completed" update: status, aggregate scores and completion time. */
  function MarkedCompleted(e: EvaluationRow, scores: Scores, now: string): (c: EvaluationRow)
    ensures c.status == Completed && c.aggregateScores == Some(scores) && c.completedAt == Some(now)
    ensures c.(status := e.status, aggregateScores := e.aggregateScores, completedAt := e.completedAt) == e
  {
    e.(status := Completed, aggregateScores := Some(scores), completedAt := Some(now))
  }

  // ---------------------------------------------------------------------
  // Per-row persistence
  // ---------------------------------------------------------------------

  /** The rows the persistence loop inserts: one per row without an error,
      its `example_index` being its position among all rows. */
  function Persisted(evalId: nat, rows: seq<Evaluation.ExampleResult>): (p: seq<ResultRow>)
    ensures |p| == Evaluation.ScoredCount(rows)
    ensures forall k :: 0 <= k < |p| ==>
              && p[k].evaluationId == evalId
              && p[k].exampleIndex < |rows|
              && rows[p[k].exampleIndex].Scored?
              && p[k] == ResultRow(evalId, p[k].exampleIndex, rows[p[k].exampleIndex].input,
                                   rows[p[k].exampleIndex].expectedOutput, rows[p[k].exampleIndex].actualOutput,
                                   rows[p[k].exampleIndex].scores)
    ensures forall j, k :: 0 <= j < k < |p| ==> p[j].exampleIndex < p[k].exampleIndex
  {
    if rows == [] then []
    else
      var n := |rows| - 1;
      var before := Persisted(evalId, rows[..n]);
      assert forall k :: 0 <= k < |before| ==> rows[..n][before[k].exampleIndex] == rows[before[k].exampleIndex];
      match rows[n]
      case Failed(_, _) => before
      case Scored(input, expected, actual, scores) =>
        before + [ResultRow(evalId, n, input, expected, actual, scores)]
  }

  /** Every row without an error is stored, under its own index. */
  lemma {:induction false} PersistedCoversScoredRows(evalId: nat, rows: seq<Evaluation.ExampleResult>, i: nat)
    requires i < |rows| && rows[i].Scored?
    ensures exists k :: 0 <= k < |Persisted(evalId, rows)| && Persisted(evalId, rows)[k].exampleIndex == i
    decreases |rows|
  {
    var n := |rows| - 1;
    var p := Persisted(evalId, rows);
    if i == n {
      assert p[|p| - 1].exampleIndex == i;
    } else {
      PersistedCoversScoredRows(evalId, rows[..n], i);
      var before := Persisted(evalId, rows[..n]);
      var k :| 0 <= k < |before| && before[k].exampleIndex == i;
      assert p[k] == before[k];
    }
  }

  /** The persistence loop. */
  method PersistResults(db: Database, evalId: nat, rows: seq<Evaluation.ExampleResult>)
    modifies db`results
    ensures db.results == old(db.results) + Persisted(evalId, rows)
  {
    for i := 0 to |rows|
      invariant db.results == old(db.results) + Persisted(evalId, rows[..i])
    {
      assert rows[..i + 1][..i] == rows[..i];
      if rows[i].Scored? {
        var row := rows[i];
        db.results := db.results + [ResultRow(evalId, i, row.input, row.expectedOutput, row.actualOutput, row.scores)];
      }
    }
    assert rows[..|rows|] == rows;
  }

  // ---------------------------------------------------------------------
  // run_eval_task
  // ---------------------------------------------------------------------

  /** Steps 4 to 6 of `run_eval_task`, once the record's version content,
      its prompt's output schema and a non-empty sample list are in hand:
      a sample input that is not a dict raises and marks the record
      "failed"; otherwise the record is "completed" with the run's
      aggregate and the rows without an error are stored. */
  method ScoreAndRecord(db: Database, evalId: nat, content: string, samples: seq<Evaluation.Sample>, schema: Option<Json>,
                        env: Evaluation.Env, gens: nat -> Evaluation.Generation, now: string)
    requires evalId < |db.evaluations|
    modifies db`evaluations, db`results
    ensures old(db.Valid()) ==> db.Valid()
    ensures !Evaluation.AllDicts(samples) ==>
              && db.evaluations == old(db.evaluations)[evalId := MarkedFailed(old(db.evaluations)[evalId], now)]
              && db.results == old(db.results)
    ensures Evaluation.AllDicts(samples) ==>
              var run := Evaluation.FullRun(env, content, samples, schema, Evaluation.ExactMatch, gens).value;
              && db.evaluations == old(db.evaluations)[evalId := MarkedCompleted(old(db.evaluations)[evalId], run.aggregateScores, now)]
              && db.results == old(db.results) + Persisted(evalId, run.results)
  {
    var e := db.evaluations[evalId];
    // 4. the run, always by exact match
    var run := Evaluation.RunFullEvaluation(env, content, samples, schema, Evaluation.ExactMatch, gens);
    if run.Err? {
      db.evaluations := db.evaluations[evalId := MarkedFailed(e, now)];
      return;
    }
    // 5. the aggregate, then 6. the rows
    db.evaluations := db.evaluations[evalId := MarkedCompleted(e, run.value.aggregateScores, now)];
    PersistResults(db, evalId, run.value.results);
  }

  /** `run_eval_task`. A missing evaluation or version, or no samples for
      a missing dataset, ends the background run without a write; no
      samples ends it "failed", and so does a version whose prompt is
      missing (reading its output schema raises); otherwise the record is
      scored and recorded as `ScoreAndRecord` says. */
  method RunEvalTask(db: Database, evalId: nat, env: Evaluation.Env, gens: nat -> Evaluation.Generation, now: string)
    modifies db`evaluations, db`results
    ensures old(db.Valid()) ==> db.Valid()
    ensures evalId >= |old(db.evaluations)| || old(db.evaluations)[evalId].promptVersionId >= |db.versions| ==>
              db.evaluations == old(db.evaluations) && db.results == old(db.results)
    ensures evalId < |old(db.evaluations)| && old(db.evaluations)[evalId].promptVersionId < |db.versions| ==>
              var e := old(db.evaluations)[evalId];
              var version := db.versions[e.promptVersionId];
              var samples := ImprovementLoop.SamplesOf(db.samples, e.datasetId);
              if samples == [] then
                && db.results == old(db.results)
                && db.evaluations == (if e.datasetId < |db.datasets| then old(db.evaluations)[evalId := MarkedFailed(e, now)]
                                      else old(db.evaluations))
              else if version.promptId >= |db.prompts| || !Evaluation.AllDicts(samples) then
                && db.evaluations == old(db.evaluations)[evalId := MarkedFailed(e, now)]
                && db.results == old(db.results)
              else
                var run := Evaluation.FullRun(env, version.content, samples, db.prompts[version.promptId].outputSchema,
                                              Evaluation.ExactMatch, gens).value;
                && db.evaluations == old(db.evaluations)[evalId := MarkedCompleted(e, run.aggregateScores, now)]
                && db.results == old(db.results) + Persisted(evalId, run.results)
    ensures evalId < |db.evaluations| && old(db.evaluations)[evalId].status != Completed
            && db.evaluations[evalId].status == Completed ==>
              && db.evaluations[evalId].aggregateScores.Some?
              && db.evaluations[evalId].aggregateScores.value.InUnitRange()
  {
    // 1. the evaluation
    if evalId >= |db.evaluations| {
      return;
    }
    var e := db.evaluations[evalId];
    // 2. the version and, joined to it, its prompt
    if e.promptVersionId >= |db.versions| {
      return;
    }
    var version := db.versions[e.promptVersionId];
    // 3. the samples
    var samples := ImprovementLoop.SamplesOf(db.samples, e.datasetId);
    if samples == [] {
      if e.datasetId >= |db.datasets| {
        return;
      }
      db.evaluations := db.evaluations[evalId := MarkedFailed(e, now)];
      return;
    }
    // `prompt["output_schema"]` raises when the join found no prompt
    if version.promptId >= |db.prompts| {
      db.evaluations := db.evaluations[evalId := MarkedFailed(e, now)];
      return;
    }
    ScoreAndRecord(db, evalId, version.content, samples, db.prompts[version.promptId].outputSchema, env, gens, now);
  }
}
