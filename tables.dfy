/** The Supabase tables the backend reads and writes, held in memory.
    A row's id is its position in its table: tables only grow, so an id
    once handed out always names the same row, and an id at or past the
    end of a table names no row (a lookup by an unknown UUID). */
module Tables {
  import opened Wrappers
  import opened Json
  import opened Metrics

  // ---------------------------------------------------------------------
  // Rows
  // ---------------------------------------------------------------------

  datatype PromptRow = PromptRow(name: string, taskType: string, outputSchema: Option<Json>)

  datatype VersionRow = VersionRow(
    promptId: nat,
    version: int,
    content: string,
    parentVersionId: Option<nat>,
    generationMethod: Option<string>,
    rationale: Option<string>,
    isActive: bool)

  datatype CandidateStatus = Pending | Promoted

  datatype CandidateRow = CandidateRow(
    promptId: nat,
    parentVersionId: nat,
    content: string,
    generationMethod: string,
    rationale: string,
    status: CandidateStatus)

  /** `promotion_history`; `metricDeltas` is absent on manual promotions. */
  datatype HistoryRow = HistoryRow(
    promptId: nat,
    fromVersionId: nat,
    toVersionId: nat,
    reason: string,
    metricDeltas: Option<Scores>,
    promotedBy: string)

  datatype DatasetRow = DatasetRow(
    name: string,
    description: string,
    source: string,
    hfRepoId: string,
    configName: Option<string>,
    split: string)

  datatype SampleRow = SampleRow(datasetId: nat, input: Json, expectedOutput: Json)

  datatype EvalStatus = Processing | Completed | Failed

  /** `evaluations`; timestamps are the ISO strings of a clock reading. */
  datatype EvaluationRow = EvaluationRow(
    promptVersionId: nat,
    datasetId: nat,
    variableMapping: Option<map<string, string>>,
    evaluationStrategy: Option<string>,
    status: EvalStatus,
    aggregateScores: Option<Scores>,
    startedAt: Option<string>,
    completedAt: Option<string>)

  datatype ResultRow = ResultRow(
    evaluationId: nat,
    exampleIndex: nat,
    input: seq<(string, Json)>,
    expectedOutput: Json,
    actualOutput: Json,
    scores: Scores)

  /** The failures of the routers: an `HTTPException(404)` naming what is
      missing, or the error the Supabase client raises when the database
      rejects an insert into the named table (an unhandled exception, so a
      500, with no row written). */
  datatype ApiError =
    | NotFound(what: string)
    | InsertFailed(table: string)

  // ---------------------------------------------------------------------
  // The database
  // ---------------------------------------------------------------------

  class Database {
    var prompts: seq<PromptRow>
    var versions: seq<VersionRow>
    var candidates: seq<CandidateRow>
    var history: seq<HistoryRow>
    var datasets: seq<DatasetRow>
    var samples: seq<SampleRow>
    var evaluations: seq<EvaluationRow>
    var results: seq<ResultRow>

    /** Every reference names an existing row (the tables' foreign keys);
        a version's parent was written before it. */
    ghost predicate Valid()
      reads this
    {
      && VersionsResolve(|prompts|, versions)
      && (forall i :: 0 <= i < |candidates| ==>
            candidates[i].promptId < |prompts| && candidates[i].parentVersionId < |versions|)
      && (forall i :: 0 <= i < |history| ==>
            history[i].promptId < |prompts| && history[i].fromVersionId < |versions|
            && history[i].toVersionId < |versions|)
      && (forall i :: 0 <= i < |samples| ==> samples[i].datasetId < |datasets|)
      && (forall i :: 0 <= i < |evaluations| ==>
            evaluations[i].promptVersionId < |versions| && evaluations[i].datasetId < |datasets|)
      && (forall i :: 0 <= i < |results| ==> results[i].evaluationId < |evaluations|)
    }

    constructor ()
      ensures Valid()
      ensures prompts == [] && versions == [] && candidates == [] && history == []
      ensures datasets == [] && samples == [] && evaluations == [] && results == []
    {
      prompts, versions, candidates, history := [], [], [], [];
      datasets, samples, evaluations, results := [], [], [], [];
    }
  }

  ghost predicate VersionsResolve(promptCount: nat, vs: seq<VersionRow>) {
    forall i :: 0 <= i < |vs| ==>
      vs[i].promptId < promptCount
      && (vs[i].parentVersionId.Some? ==> vs[i].parentVersionId.value < i)
  }

  // ---------------------------------------------------------------------
  // Queries and bulk updates of prompt_versions
  // ---------------------------------------------------------------------

  /** `.eq("prompt_id", p).order("version", desc=True).limit(1)`: the
      greatest version number of prompt `p`, if it has any version. */
  function MaxVersion(vs: seq<VersionRow>, pid: nat): (r: Option<int>)
    ensures r.None? <==> forall i :: 0 <= i < |vs| ==> vs[i].promptId != pid
    ensures r.Some? ==> exists i :: 0 <= i < |vs| && vs[i].promptId == pid && vs[i].version == r.value
    ensures r.Some? ==> forall i :: 0 <= i < |vs| && vs[i].promptId == pid ==> vs[i].version <= r.value
  {
    if vs == [] then None
    else
      var rest := MaxVersion(vs[..|vs| - 1], pid);
      var last := vs[|vs| - 1];
      if last.promptId != pid then rest
      else if rest.Some? && rest.value >= last.version then rest
      else Some(last.version)
  }

  /** `next_version`: one past the greatest number, or 1 for a prompt
      without versions. */
  function NextVersionNumber(vs: seq<VersionRow>, pid: nat): (n: int)
    ensures forall i :: 0 <= i < |vs| && vs[i].promptId == pid ==> vs[i].version < n
    ensures (forall i :: 0 <= i < |vs| ==> vs[i].promptId != pid) ==> n == 1
    ensures n == 1 || exists i :: 0 <= i < |vs| && vs[i].promptId == pid && vs[i].version == n - 1
  {
    match MaxVersion(vs, pid)
    case None => 1
    case Some(m) => m + 1
  }

  /** `.eq("prompt_id", p).eq("is_active", True)`, first row: the active
      version of `p` with the smallest id. */
  function ActiveVersion(vs: seq<VersionRow>, pid: nat): (r: Option<nat>)
    ensures r.None? <==> forall i :: 0 <= i < |vs| ==> !(vs[i].promptId == pid && vs[i].isActive)
    ensures r.Some? ==> r.value < |vs| && vs[r.value].promptId == pid && vs[r.value].isActive
    ensures r.Some? ==> forall i :: 0 <= i < r.value ==> !(vs[i].promptId == pid && vs[i].isActive)
  {
    if vs == [] then None
    else if vs[0].promptId == pid && vs[0].isActive then Some(0)
    else
      match ActiveVersion(vs[1..], pid)
      case None => None
      case Some(k) => Some(k + 1)
  }

  /** `update({"is_active": False}).eq("prompt_id", p)`. */
  function Deactivated(vs: seq<VersionRow>, pid: nat): (r: seq<VersionRow>)
    ensures |r| == |vs|
    ensures forall i :: 0 <= i < |vs| ==>
              r[i] == if vs[i].promptId == pid then vs[i].(isActive := false) else vs[i]
  {
    if vs == [] then []
    else
      var row := vs[|vs| - 1];
      Deactivated(vs[..|vs| - 1], pid) + [if row.promptId == pid then row.(isActive := false) else row]
  }

  /** `update({"is_active": flag}).eq("id", id)`: no row changes when the
      id is unknown. */
  function WithFlag(vs: seq<VersionRow>, id: nat, flag: bool): (r: seq<VersionRow>)
    ensures |r| == |vs|
    ensures id < |vs| ==> r == vs[id := vs[id].(isActive := flag)]
    ensures id >= |vs| ==> r == vs
  {
    if id < |vs| then vs[id := vs[id].(isActive := flag)] else vs
  }

  // ---------------------------------------------------------------------
  // Invariants of prompt_versions
  // ---------------------------------------------------------------------

  /** At most one version of each prompt is active. */
  predicate AtMostOneActive(vs: seq<VersionRow>) {
    forall i, j :: 0 <= i < j < |vs| && vs[i].promptId == vs[j].promptId ==> !(vs[i].isActive && vs[j].isActive)
  }

  /** No two versions of one prompt share a number. */
  predicate UniqueNumbers(vs: seq<VersionRow>) {
    forall i, j :: 0 <= i < j < |vs| && vs[i].promptId == vs[j].promptId ==> vs[i].version != vs[j].version
  }

  /** `after` differs from `before` at most in the `is_active` flags. */
  predicate OnlyFlagsChanged(before: seq<VersionRow>, after: seq<VersionRow>) {
    |before| == |after| && forall i :: 0 <= i < |before| ==> after[i] == before[i].(isActive := after[i].isActive)
  }

  /** No version of prompt `pid` is active. */
  predicate NoneActive(vs: seq<VersionRow>, pid: nat) {
    forall i :: 0 <= i < |vs| && vs[i].promptId == pid ==> !vs[i].isActive
  }

  /** Appending an inactive row keeps at most one active version per prompt. */
  lemma AppendInactiveKeepsAtMostOne(vs: seq<VersionRow>, row: VersionRow)
    requires AtMostOneActive(vs) && !row.isActive
    ensures AtMostOneActive(vs + [row])
  {
  }

  /** Appending a row numbered past every number of its prompt keeps the
      numbers unique. */
  lemma AppendFreshNumberKeepsUnique(vs: seq<VersionRow>, row: VersionRow)
    requires UniqueNumbers(vs)
    requires forall i :: 0 <= i < |vs| && vs[i].promptId == row.promptId ==> vs[i].version < row.version
    ensures UniqueNumbers(vs + [row])
  {
  }

  // ---------------------------------------------------------------------
  // Ordering of list_versions
  // ---------------------------------------------------------------------

  /** `.eq("prompt_id", pid)` on `prompt_versions`: the versions of prompt
      `pid` with their ids, in id order. */
  function VersionsOf(vs: seq<VersionRow>, pid: nat): (r: seq<(nat, VersionRow)>)
    ensures forall k :: 0 <= k < |r| ==> r[k].0 < |vs| && vs[r[k].0] == r[k].1 && r[k].1.promptId == pid
    ensures forall j, k :: 0 <= j < k < |r| ==> r[j].0 < r[k].0
    ensures forall i :: 0 <= i < |vs| && vs[i].promptId == pid ==> (i, vs[i]) in r
  {
    if vs == [] then []
    else
      var n := |vs| - 1;
      var rest := VersionsOf(vs[..n], pid);
      assert forall k :: 0 <= k < |rest| ==> vs[..n][rest[k].0] == vs[rest[k].0];
      if vs[n].promptId == pid then rest + [(n, vs[n])] else rest
  }

  predicate SortedByVersionDesc(rs: seq<(nat, VersionRow)>) {
    forall a, b :: 0 <= a < b < |rs| ==> rs[a].1.version >= rs[b].1.version
  }

  /** Places `row` in front of the first row with a smaller number. */
  function InsertByVersion(row: (nat, VersionRow), rs: seq<(nat, VersionRow)>): (r: seq<(nat, VersionRow)>)
    requires SortedByVersionDesc(rs)
    ensures SortedByVersionDesc(r)
    ensures multiset(r) == multiset(rs) + multiset{row}
  {
    if rs == [] then [row]
    else if rs[0].1.version <= row.1.version then [row] + rs
    else
      var rest := InsertByVersion(row, rs[1..]);
      assert rs == [rs[0]] + rs[1..];
      HeadBoundsRest(row, rs, rest);
      [rs[0]] + rest
  }

  lemma HeadBoundsRest(row: (nat, VersionRow), rs: seq<(nat, VersionRow)>, rest: seq<(nat, VersionRow)>)
    requires rs != [] && SortedByVersionDesc(rs) && rs[0].1.version > row.1.version
    requires SortedByVersionDesc(rest) && multiset(rest) == multiset(rs[1..]) + multiset{row}
    ensures SortedByVersionDesc([rs[0]] + rest)
  {
    forall k | 0 <= k < |rest|
      ensures rs[0].1.version >= rest[k].1.version
    {
      assert rest[k] in multiset(rest);
      if rest[k] != row {
        assert rest[k] in multiset(rs[1..]);
        var m :| 0 <= m < |rs[1..]| && rs[1..][m] == rest[k];
        assert rs[m + 1] == rest[k];
      }
    }
  }

  /** `.order("version", desc=True)`: the rows, greatest number first. */
  function SortByVersionDesc(rs: seq<(nat, VersionRow)>): (r: seq<(nat, VersionRow)>)
    ensures SortedByVersionDesc(r)
    ensures multiset(r) == multiset(rs)
  {
    if rs == [] then []
    else
      assert rs == [rs[0]] + rs[1..];
      InsertByVersion(rs[0], SortByVersionDesc(rs[1..]))
  }
}
