/** The improvement endpoints (backend/routers/improvements.py): the
    forwarding of `/improve` to the improvement loop, and the manual
    promotion of a stored candidate. */
module Improvements {
  import opened Wrappers
  import opened Json
  import opened Metrics
  import opened Tables
  import Evaluation
  import ImprovementLoop

  // ---------------------------------------------------------------------
  // improve_prompt
  // ---------------------------------------------------------------------

  /** The body of `/improve` (`ImprovementRequest`). */
  datatype ImprovementRequest = ImprovementRequest(
    promptId: nat,
    datasetId: nat,
    numCandidates: int,
    autoPromote: bool,
    generationMethod: string,
    evaluationStrategy: Option<string>,
    baseVersionId: Option<nat>)

  /** An `HTTPException`: the status code and the detail. */
  datatype HttpError = HttpError(status: nat, detail: ImprovementLoop.LoopError)

  /** The generation method `run_improvement_loop` falls back to. */
  const DefaultMethod: string := "meta_prompting"

  /** `improve_prompt`: only the prompt, the dataset, the number of
      candidates and `auto_promote` are forwarded, so the loop runs with
      its default method whatever the request asks for, evaluates the
      active version (not `base_version_id`) on the request's dataset, and
      stores its candidate under the active version; a failure of the
      loop becomes a 500. The generated candidates (at most
      `num_candidates` of them) reach the loop as `generated`. */
  method ImprovePrompt(db: Database, request: ImprovementRequest, env: Evaluation.Env,
                       baselineGen: nat -> Evaluation.Generation, generated: seq<(string, string)>,
                       candidateGen: nat -> nat -> Evaluation.Generation)
    returns (r: Result<ImprovementLoop.ImprovementResult, HttpError>)
    modifies db`versions, db`candidates, db`history
    ensures old(db.Valid()) ==> db.Valid()
    ensures r.Err? ==> r.error.status == 500
    ensures r.Err? && r.error.detail.NoActiveVersion? <==> ActiveVersion(old(db.versions), request.promptId).None?
    ensures r.Err? && r.error.detail.PromptNotFound? <==>
              ActiveVersion(old(db.versions), request.promptId).Some? && request.promptId >= |db.prompts|
    ensures r.Err? && r.error.detail.NoSamples? <==>
              && ActiveVersion(old(db.versions), request.promptId).Some? && request.promptId < |db.prompts|
              && ImprovementLoop.SamplesOf(db.samples, request.datasetId) == []
    ensures r.Err? && r.error.detail.EvaluationFailed? <==>
              && ActiveVersion(old(db.versions), request.promptId).Some? && request.promptId < |db.prompts|
              && ImprovementLoop.SamplesOf(db.samples, request.datasetId) != []
              && !Evaluation.AllDicts(ImprovementLoop.SamplesOf(db.samples, request.datasetId))
    ensures r.Ok? ==>
              && ActiveVersion(old(db.versions), request.promptId).Some? && request.promptId < |db.prompts|
              && Evaluation.AllDicts(ImprovementLoop.SamplesOf(db.samples, request.datasetId))
              && r.value.baselineScores ==
                   ImprovementLoop.RunScores(env, old(db.versions)[ActiveVersion(old(db.versions), request.promptId).value].content,
                                             ImprovementLoop.SamplesOf(db.samples, request.datasetId),
                                             db.prompts[request.promptId].outputSchema, baselineGen)
              && ImprovementLoop.BestChoice(
                   ImprovementLoop.CandidateResults(env, ImprovementLoop.SamplesOf(db.samples, request.datasetId),
                                                    db.prompts[request.promptId].outputSchema, generated, candidateGen),
                   ImprovementLoop.AvgScore(r.value.baselineScores.Values()), r.value.bestCandidate, r.value.bestImprovement)
    ensures r.Ok? ==> r.value.candidatesEvaluated == |generated|
    ensures r.Ok? ==>
              ImprovementLoop.Verdict(r.value.shouldPromote, r.value.rejection)
                == ImprovementLoop.Guardrail(r.value.bestCandidate, r.value.bestImprovement, r.value.baselineScores)
    ensures r.Ok? && r.value.shouldPromote ==> r.value.bestCandidate.Some?
    ensures r.Err? || !r.value.shouldPromote ==>
              db.versions == old(db.versions) && db.candidates == old(db.candidates) && db.history == old(db.history)
    ensures r.Ok? && r.value.shouldPromote ==>
              var active := ActiveVersion(old(db.versions), request.promptId).value;
              var best := r.value.bestCandidate.value;
              && db.candidates == old(db.candidates) +
                   [CandidateRow(request.promptId, active, best.content, DefaultMethod, best.rationale,
                                 if request.autoPromote then Promoted else Pending)]
              && (!request.autoPromote ==> db.versions == old(db.versions) && db.history == old(db.history))
              && (request.autoPromote ==>
                    && db.versions == ImprovementLoop.AutoPromoted(old(db.versions), request.promptId, active,
                                                                   ImprovementLoop.AutoPromotedNumber(old(db.versions), active),
                                                                   best.content, DefaultMethod, best.rationale)
                    && db.history == old(db.history) +
                         [HistoryRow(request.promptId, active, |old(db.versions)|, "Auto-promoted: " + best.rationale,
                                     Some(best.scores.Minus(r.value.baselineScores)), "system")])
  {
    var result := ImprovementLoop.RunImprovementLoop(db, request.promptId, request.datasetId, request.autoPromote,
                                                     DefaultMethod, env, baselineGen, generated, candidateGen);
    match result
    case Ok(v) => r := Ok(v);
    case Err(e) => r := Err(HttpError(500, e));
  }

  // ---------------------------------------------------------------------
  // promote_candidate
  // ---------------------------------------------------------------------

  /** The version `promote_candidate` inserts: the next number of the
      prompt, the candidate's content and method, the old active version
      as parent, the candidate's rationale or else the request's reason,
      inactive. */
  function PromotedVersion(vs: seq<VersionRow>, pid: nat, active: nat, c: CandidateRow, reason: Option<string>)
    : (row: VersionRow)
    ensures row.promptId == pid && !row.isActive && row.parentVersionId == Some(active)
    ensures row.content == c.content && row.generationMethod == Some(c.generationMethod)
    ensures row.rationale == (if c.rationale != "" then Some(c.rationale) else reason)
    ensures forall i :: 0 <= i < |vs| && vs[i].promptId == pid ==> vs[i].version < row.version
  {
    VersionRow(pid, NextVersionNumber(vs, pid), c.content, Some(active), Some(c.generationMethod),
               if c.rationale != "" then Some(c.rationale) else reason, false)
  }

  /** The version table after the insert and the two updates: every
      version of the prompt is deactivated, then the new row, by id, is
      activated. */
  function ManuallyPromoted(vs: seq<VersionRow>, row: VersionRow): seq<VersionRow> {
    WithFlag(Deactivated(vs + [row], row.promptId), |vs|, true)
  }

  /** The history row: `request.reason or "Manual promotion"`. */
  function ManualHistoryRow(pid: nat, active: nat, newId: nat, reason: Option<string>): (h: HistoryRow)
    ensures h.promotedBy == "user" && h.metricDeltas.None?
    ensures h.fromVersionId == active && h.toVersionId == newId
    ensures reason.Some? && reason.value != "" ==> h.reason == reason.value
    ensures reason.None? || reason.value == "" ==> h.reason == "Manual promotion"
  {
    HistoryRow(pid, active, newId, if reason.Some? && reason.value != "" then reason.value else "Manual promotion",
               None, "user")
  }

  /** `promote_candidate`. The candidate is looked up by id alone; the
      active version of the request's prompt is the first active row. */
  method PromoteCandidate(db: Database, pid: nat, candidateId: nat, reason: Option<string>)
    returns (r: Result<nat, ApiError>)
    requires db.Valid()
    modifies db`versions, db`history
    ensures db.Valid()
    ensures candidateId >= |db.candidates| ==> r == Err(NotFound("Candidate not found"))
    ensures candidateId < |db.candidates| && ActiveVersion(old(db.versions), pid).None? ==>
              r == Err(NotFound("No active version found"))
    ensures r.Err? ==> db.versions == old(db.versions) && db.history == old(db.history)
    ensures r.Ok? <==> candidateId < |db.candidates| && ActiveVersion(old(db.versions), pid).Some?
    ensures r.Ok? ==>
              var active := ActiveVersion(old(db.versions), pid).value;
              var row := PromotedVersion(old(db.versions), pid, active, db.candidates[candidateId], reason);
              && r.value == |old(db.versions)|
              && db.versions == ManuallyPromoted(old(db.versions), row)
              && db.history == old(db.history) + [ManualHistoryRow(pid, active, r.value, reason)]
  {
    if candidateId >= |db.candidates| {
      return Err(NotFound("Candidate not found"));
    }
    var candidate := db.candidates[candidateId];
    var activeId := ActiveVersion(db.versions, pid);
    if activeId.None? {
      return Err(NotFound("No active version found"));
    }
    var active := activeId.value;
    var row := PromotedVersion(db.versions, pid, active, candidate, reason);
    var newId := |db.versions|;
    db.versions := db.versions + [row];
    db.versions := Deactivated(db.versions, pid);
    db.versions := WithFlag(db.versions, newId, true);
    db.history := db.history + [ManualHistoryRow(pid, active, newId, reason)];
    r := Ok(newId);
  }

  /** After a manual promotion the new version is the prompt's only active
      version, at most one version per prompt stays active, numbers stay
      unique, and the older rows change only in their flags. */
  lemma ManualPromotionLeavesNewVersionSoleActive(vs: seq<VersionRow>, pid: nat, active: nat, c: CandidateRow,
                                                  reason: Option<string>)
    requires AtMostOneActive(vs) && UniqueNumbers(vs)
    ensures var after := ManuallyPromoted(vs, PromotedVersion(vs, pid, active, c, reason));
            && ActiveVersion(after, pid) == Some(|vs|)
            && NoneActive(after[..|vs|], pid)
            && AtMostOneActive(after)
            && UniqueNumbers(after)
            && OnlyFlagsChanged(vs, after[..|vs|])
  {
    var row := PromotedVersion(vs, pid, active, c, reason);
    var after := ManuallyPromoted(vs, row);
    var appended := vs + [row];
    assert after[|vs|].isActive && after[|vs|].promptId == pid;
    forall i | 0 <= i < |vs|
      ensures after[i] == if vs[i].promptId == pid then vs[i].(isActive := false) else vs[i]
    {
      assert appended[i] == vs[i];
    }
    assert ActiveVersion(after, pid).Some?;
    AppendFreshNumberKeepsUnique(vs, row);
    forall i, j | 0 <= i < j < |after| && after[i].promptId == after[j].promptId
      ensures !(after[i].isActive && after[j].isActive)
      ensures after[i].version != after[j].version
    {
      assert after[i].version == appended[i].version && after[j].version == appended[j].version;
    }
  }
}
