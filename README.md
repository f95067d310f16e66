# Prompt optimization backend — a Dafny model

This project models the backend logic of a prompt-optimization platform
(a FastAPI service over Supabase tables). With that logic, users version
LLM prompts, evaluate a prompt version against a dataset of samples, and
run a self-improvement loop. The loop generates candidate prompts, scores
them against the active version and promotes the best one when it passes
three guardrails.

The model covers these parts of the backend:

- **Template variables**: extracting `{identifier}` placeholders,
  validating a variable→column mapping, and substituting values
  (`prompt_utils.dfy`).
- **Per-row scoring and aggregation**: exact-match correctness, format
  adherence, the verbosity penalty, the prompt-formatting loop, the error
  rows, and the aggregation that sums the rows without an error but
  divides by all rows (`evaluation.dfy`).
- **The improvement loop**: the precondition checks, the baseline and
  candidate runs, best-candidate selection, the three guardrail clauses
  (0.05 / 0.02 / 0.9) and the commit step (`improvement_loop.dfy`).
- **The version table**: creating prompts and versions, max+1 numbering,
  activation, listing, and manual promotion (`prompts.dfy`,
  `improvements.dfy`). The invariants are "at most one active version per
  prompt" and "unique numbers per prompt".
- **Candidate generation**: the method dispatch, the shapes of the model's
  reply, truncation, and the few-shot accumulation loop
  (`candidate_generator.dfy`).
- **Evaluation runs**: the status transitions and the per-row persistence
  loop (`evaluations.dfy`).
- **Hugging Face import**: the limit, batches of twenty, and the choice of
  `expected_output` (`datasets.dfy`).

Shared definitions:

- `wrappers.dfy`: `Option` and `Result`.
- `json.dfy`: an abstract JSON value with Python truthiness and `dict.get`.
- `metrics.dfy`: the four-metric score record.
- `tables.dfy`: the tables as sequences held by a `Database` object, plus
  the pure functions over the version table.

Conventions of the model:

- A row's id is its position in its table; tables only grow.
- The Supabase foreign keys are part of `Database.Valid()`.
- Scores are `real`.
- These are parameters:
  - the language model's answers;
  - the token count;
  - `json.loads`, `jsonschema.validate` and `str()` of a JSON value;
  - the clock.

Behaviours of the code that the model keeps, although a reader might
expect otherwise:

- The aggregate divides by the number of all rows, error rows included
  (`Evaluation.Aggregate`, `Evaluation.AggregateCountsFailedRows`).
- A sample whose input is not a dict makes the whole evaluation fail
  (`Evaluation.EvalError`); it is not passed through.
- `run_eval_task` stores the variable mapping but never applies it, and it
  always scores by exact match.
- The guardrail's threshold applies to the average of all four metrics.
  A candidate that gains ten points of correctness and loses eight of
  format adherence is therefore rejected by the threshold clause, not the
  regression clause (`ImprovementLoop.CorrectnessGainWithFormatLossMissesThreshold`).

## Model

| member | source | states |
|---|---|---|
| PromptUtils.ExtractVariables | backend/services/prompt_utils.py:8-38 | Empty content gives []. The result has no duplicates. A name is in it iff the name is an identifier and `{name}` is written somewhere. Names come in order of first appearance. |
| PromptUtils.MatchAtIff | backend/services/prompt_utils.py:26 | The pattern matches at a position with capture `name` iff `name` is an identifier and `{name}` is written there, so `{1}` and `{}` never match. |
| PromptUtils.MatchesDoNotOverlap | backend/services/prompt_utils.py:32 | No match starts inside another match, so scanning every position finds the matches `re.finditer` finds. |
| PromptUtils.ScanComplete | backend/services/prompt_utils.py:29-36 | Once the scan has passed every position, its list is duplicate-free, holds exactly the placeholder names, and is in first-appearance order. |
| PromptUtils.ValidateVariableMapping | backend/services/prompt_utils.py:41-70 | With no prompt variables the mapping is valid. "Unmapped" holds iff some variable is not a key, and it names exactly those variables. "Invalid columns" holds iff all variables are mapped and some mapped value (of any key) is not a column, and it names exactly those values. Otherwise the mapping is valid. |
| PromptUtils.SubstituteVariables | backend/services/prompt_utils.py:73-90 | The loop's result is the key-by-key fold of `str.replace` over the pairs, in dict order. |
| PromptUtils.ReplaceAbsent | backend/services/prompt_utils.py:87-88 | A placeholder that does not occur leaves the text unchanged. |
| PromptUtils.ReplaceAtFirstOccurrence | backend/services/prompt_utils.py:88 | `replace` substitutes the first occurrence and continues after it without rescanning the inserted value. |
| PromptUtils.SubstituteWithoutPlaceholders | backend/services/prompt_utils.py:84-90 | When no key's placeholder occurs (in particular for an empty dict), the template comes back unchanged. |
| PromptUtils.ReplaceSingle | backend/services/prompt_utils.py:88 | A placeholder that stands once, after brace-free text, is replaced by the value and the rest is kept. |
| PromptUtils.OtherKeyAbsent | backend/services/prompt_utils.py:86-87 | One key's placeholder is not found in text whose only placeholder is another key's. |
| PromptUtils.SubstituteTwoKeys | backend/services/prompt_utils.py:84-90 | Two distinct keys, each written once between brace-free text, are both replaced by their values. |
| PromptUtils.GreetingExample | backend/services/prompt_utils.py:84-90 | "Hello {name}, you are from {city}." with "Ana" and "Lima" reads "Hello Ana, you are from Lima.". |
| Evaluation.TrimLeft | backend/services/evaluation.py:17 | What `lstrip` keeps is a suffix of its argument. Everything removed is whitespace (the characters `str.isspace` accepts, non-ASCII spaces included), and the result is empty or starts with a non-whitespace character. |
| Evaluation.TrimRight | backend/services/evaluation.py:17 | What `rstrip` keeps is a prefix of its argument. Everything removed is whitespace, and the result is empty or ends with a non-whitespace character. |
| Evaluation.StripPadded | backend/services/evaluation.py:17 | Surrounding whitespace does not change the stripped text. |
| Evaluation.ScoreCorrectness | backend/services/evaluation.py:11-25 | A null actual gives 0.0. Exact match gives 1.0 iff both stringified, stripped sides are equal. Numeric match gives 1.0 iff the values agree. Any other strategy gives 0.0. The result is always 0.0 or 1.0. |
| Evaluation.ExactMatchIgnoresPadding | backend/services/evaluation.py:17 | Whitespace around the expected value does not change the exact-match score. |
| Evaluation.NoBreakSpaceIsStripped | backend/services/evaluation.py:17 | A trailing no-break space (U+00A0) is stripped like an ASCII space, so "42\u00a0" matches "42". |
| Evaluation.JudgeScore | backend/services/evaluation.py:45-54 | A judge's number is clamped into [0, 1]. With no number the score is 0.5. |
| Evaluation.ScoreFormatAdherence | backend/services/evaluation.py:57-73 | No (or an empty) schema gives 1.0. A string output that does not parse gives 0.0. Otherwise the score is 1.0 iff the value conforms to the schema. |
| Evaluation.ScoreVerbosity | backend/services/evaluation.py:102-113 | At most `max_tokens` tokens give 1.0. More give a score in [0.5, 1). Twice the budget or more gives 0.5. |
| Evaluation.VerbosityNonIncreasing | backend/services/evaluation.py:107-113 | More tokens never score better. |
| Evaluation.FormatPrompt | backend/services/evaluation.py:126-129 | The formatting loop yields what `substitute_variables` yields for the stringified input values. |
| Evaluation.JsonBlock | backend/services/evaluation.py:144-146 | A block exists iff some `}` follows some `{`. The block runs from the first `{` to the last `}`. |
| Evaluation.ActualOutput | backend/services/evaluation.py:138-150 | Without a schema the output is the reply text. With one, it is the parsed JSON block (or parsed whole reply) when that parses, and otherwise the text. |
| Evaluation.ScoreExample | backend/services/evaluation.py:116-186 | A failed generation gives an error row with all four scores 0.0. Otherwise the row carries the input, the expected and actual outputs, and the four scorers' values. All scores are in [0, 1]. |
| Evaluation.ExampleRow | backend/services/evaluation.py:116-186 | For a dict input, the row of one sample is an error row iff its generation failed, and its scores are in [0, 1]. |
| Evaluation.EvaluateAll | backend/services/evaluation.py:200-212 | The run fails iff some input is not a dict. Otherwise there is one row per sample, in sample order: row i is the sample's score on the template with its stringified input values substituted, under the i-th generation. |
| Evaluation.Aggregate | backend/services/evaluation.py:214-232 | No rows give all-zero aggregates. Otherwise the aggregate is the sum over the rows without an error, divided by the number of all rows. |
| Evaluation.SumScoredBounds | backend/services/evaluation.py:224-228 | Each summed metric lies between 0 and the number of rows without an error. |
| Evaluation.AggregateInUnitRange | backend/services/evaluation.py:222-230 | Row scores in [0, 1] give aggregates in [0, 1]. |
| Evaluation.SumOfPerfectRows | backend/services/evaluation.py:224-228 | When every row without an error is fully correct, summed correctness equals the number of those rows. |
| Evaluation.AggregateCountsFailedRows | backend/services/evaluation.py:222-230 | In that case the aggregate correctness is the share of rows without an error, not 1. |
| Evaluation.FullRun | backend/services/evaluation.py:189-237 | The run fails iff some input is not a dict. Otherwise there is one result per sample, and result i is an error row iff the i-th generation failed. No samples give zero aggregates, and aggregates are in [0, 1]. |
| Evaluation.RunFullEvaluation | backend/services/evaluation.py:189-237 | The gather-then-aggregate method returns exactly `FullRun`: the same error, or the same rows and the same aggregate. |
| Tables.Database.constructor | backend/db/supabase_client.py:16 | A fresh store has all tables empty and satisfies the foreign-key invariant. |
| Tables.MaxVersion | backend/routers/prompts.py:57 | None iff the prompt has no versions. Otherwise it is the number of one of the prompt's versions, and no version of the prompt has a greater number. |
| Tables.NextVersionNumber | backend/routers/prompts.py:56-60 | The result exceeds every number of the prompt. It is 1 when the prompt has no versions, and otherwise one more than an existing number. |
| Tables.ActiveVersion | backend/services/improvement_loop.py:20-23 | It is the first active row of the prompt, and None iff the prompt has none. |
| Tables.Deactivated | backend/routers/prompts.py:82 | Every row of the prompt becomes inactive. Nothing else changes. |
| Tables.WithFlag | backend/routers/prompts.py:85 | Only the row with the id gets the flag. An unknown id changes nothing. |
| Tables.AppendInactiveKeepsAtMostOne | backend/routers/prompts.py:62-72 | Appending an inactive row keeps at most one active version per prompt. |
| Tables.AppendFreshNumberKeepsUnique | backend/routers/prompts.py:57-72 | Appending a row numbered above the prompt's numbers keeps numbers unique per prompt. |
| Tables.VersionsOf | backend/routers/prompts.py:49 | The result pairs each of the prompt's rows with its id, in id order, each exactly once, and holds no other row. |
| Tables.SortByVersionDesc | backend/routers/prompts.py:49 | The result is ordered by descending number and is a permutation of its input. |
| Prompts.CreatePrompt | backend/routers/prompts.py:17-34 | It appends the prompt row, then a version numbered 1 with empty content that is inactive. The invariant is kept. |
| Prompts.NewPromptStartsInactive | backend/routers/prompts.py:24-32 | A new prompt owns only its initial version, has no active version, and its next number is 2. |
| Prompts.NewVersion | backend/routers/prompts.py:56-70 | The created row is inactive and keeps the given parent. Its number exceeds every number of the prompt, and is 1 for a prompt without versions. |
| Prompts.CreateVersion | backend/routers/prompts.py:53-75 | The database rejects the insert of a missing prompt or parent, and the table is left unchanged. Otherwise the new row is appended and its id returned. |
| Prompts.CreateVersionKeepsInvariants | backend/routers/prompts.py:57-72 | Creating a version keeps numbers unique and at most one version active per prompt. |
| Prompts.ActivateVersion | backend/routers/prompts.py:78-88 | It deactivates every version of the prompt and then activates the row with the given id. An unknown id gives "Version not found". |
| Prompts.ActivateMakesTargetSoleActive | backend/routers/prompts.py:81-85 | After activating a version of the prompt, that version is the prompt's only active one. |
| Prompts.ActivateUnknownLeavesNoneActive | backend/routers/prompts.py:82-87 | With an unknown id, the prompt is left with no active version. |
| Prompts.ActivateChangesOnlyFlags | backend/routers/prompts.py:82-85 | Only `is_active` changes. Rows of other prompts are untouched except the target id. |
| Prompts.ActivateWithinPromptKeepsAtMostOne | backend/routers/prompts.py:81-85 | An id of the prompt's own version keeps at most one active version per prompt. |
| Prompts.ActivateAcrossPromptsBreaksAtMostOne | backend/routers/prompts.py:85 | The id of another prompt's version leaves that prompt with two active versions. |
| Prompts.ActivateInPromptKeepsAtMostOne | backend/routers/prompts.py:81-85 | With the second update restricted to the prompt, every id keeps at most one active version per prompt. |
| Prompts.ListVersions | backend/routers/prompts.py:46-50 | It returns every version of the prompt with its id, and nothing else, ordered by descending number. It is a permutation of the prompt's rows. |
| Prompts.ListedIdsAreDistinct | backend/routers/prompts.py:49 | No version is listed twice: the listed ids are pairwise distinct. |
| ImprovementLoop.AvgScore | backend/services/improvement_loop.py:83-84 | It is 0.0 for no values. Otherwise it is the mean: times the number of values, it gives their sum. |
| ImprovementLoop.AvgScoreInUnitRange | backend/services/improvement_loop.py:83-84 | Values in [0, 1] have a mean in [0, 1]. |
| ImprovementLoop.AvgScoreOfScores | backend/services/improvement_loop.py:83-90 | The average of a score record is the mean of its four metrics. The difference of two averages is the average of the deltas. |
| ImprovementLoop.SelectBest | backend/services/improvement_loop.py:79-94 | The chosen candidate has the greatest improvement, and every earlier candidate is strictly worse. None is chosen iff no improvement exceeds -1.0. |
| ImprovementLoop.Guardrail | backend/services/improvement_loop.py:96-115 | The clauses are checked in order: threshold 0.05, regression 0.02, floor 0.9. The first failing clause names the reason. Promotion happens iff a candidate exists and all three pass. No candidate gives no promotion and no reason. |
| ImprovementLoop.CorrectnessGainWithFormatLossMissesThreshold | backend/services/improvement_loop.py:100-104 | +0.1 correctness with -0.08 format improves the average by 0.005, so the threshold clause rejects it. |
| ImprovementLoop.FormatRegressionRejected | backend/services/improvement_loop.py:106-108 | Once the gain clears the threshold, an eight-point format loss is rejected as a regression. |
| ImprovementLoop.AutoPromoteKeepsSingleActive | backend/services/improvement_loop.py:138-152 | The new version becomes the prompt's only active version. Older rows change only in their flags. |
| ImprovementLoop.AutoPromoteNumberCollides | backend/services/improvement_loop.py:142 | Numbering as active+1 repeats the number of a newer inactive version. |
| ImprovementLoop.AutoPromoteWithNextNumberKeepsUnique | backend/services/improvement_loop.py:140-148 | Numbered max+1, auto-promotion keeps numbers unique. |
| ImprovementLoop.SampleIds | backend/services/improvement_loop.py:32 | The ids of the sample rows carrying the dataset id: every such row, no other, in table order. |
| ImprovementLoop.SamplesOf | backend/services/improvement_loop.py:32-35 | Sample k is the input and expected output of the row at the k-th id of `SampleIds`, so the result is the dataset's rows in table order, each once. The dataset has no samples iff no sample row carries its id. |
| ImprovementLoop.RunScores | backend/services/improvement_loop.py:39-47 | The aggregate of an exact-match run over dict samples is in [0, 1]. |
| ImprovementLoop.EvaluatePrompt | backend/services/improvement_loop.py:39-47 | The run fails iff some sample input is not a dict. Otherwise it yields that run's aggregate. |
| ImprovementLoop.CandidateScores | backend/services/improvement_loop.py:61-71 | One aggregate per generated candidate, in order, each in [0, 1]. |
| ImprovementLoop.TaggedKeepsCandidates | backend/services/improvement_loop.py:72-76 | Result k holds candidate k's content and rationale with the k-th scores. |
| ImprovementLoop.EvaluateCandidates | backend/services/improvement_loop.py:60-76 | It fails iff there is a candidate and some sample input is not a dict. Otherwise there is one result per generated candidate, in order: candidate k paired with `CandidateScores`' k-th aggregate, its own run's. |
| ImprovementLoop.Assess | backend/services/improvement_loop.py:37-115 | It fails iff some sample input is not a dict. Otherwise the baseline is the active content's run, every candidate is evaluated, the chosen candidate is the first with the greatest improvement over the baseline average (none iff none exceeds -1.0), and the verdict is the guardrail's. |
| ImprovementLoop.RunImprovementLoop | backend/services/improvement_loop.py:10-162 | The errors come in order: no active version, then missing prompt, then no samples, then a failed evaluation iff some sample input is not a dict. On success the baseline is the active version's run and the best candidate and improvement are those `Assess` states. `should_promote` and `rejection_reason` are the guardrail's verdict on them. Nothing is written unless the candidate is promoted. `candidates_evaluated` equals the number of candidates. `should_promote` holds iff all guardrail clauses pass. The commit writes the candidate row ("promoted" iff auto-promote) and, with auto-promote, the new active version and a "system" history row with candidate-minus-baseline deltas. The foreign keys are kept. |
| ImprovementLoop.Commit | backend/services/improvement_loop.py:127-162 | It writes exactly the rows of a promotion, as listed above, and keeps the foreign keys. |
| Improvements.ImprovePrompt | backend/routers/improvements.py:10-22 | A failure of the loop becomes a 500. The loop runs on the request's prompt and dataset: no active version, no samples and a non-dict input fail exactly as the loop states for them. On success the baseline is the run of the prompt's active version, not of `base_version_id`. The best candidate and the verdict are the loop's. Nothing is written unless the candidate is promoted. A promoted candidate's row is under the active version, carries "meta_prompting" whatever method the request names, and is "promoted" iff the request's `auto_promote` holds. Without `auto_promote` the versions and history are unchanged. With it, the versions and the history are exactly the loop's auto-promote writes: the active+1 version, the deactivation and the "system" history row with the deltas. A missing prompt fails as the loop states. |
| Improvements.PromotedVersion | backend/routers/improvements.py:43-56 | The new row takes the candidate's content and method and the old active version as parent. Its rationale is the candidate's, or the request's reason when that is empty. It is inactive, numbered above every version of the prompt. |
| Improvements.ManualHistoryRow | backend/routers/improvements.py:68-76 | The history row goes from the old active version to the new one. Its reason is the request's reason or "Manual promotion", and `promoted_by` is "user". |
| Improvements.PromoteCandidate | backend/routers/improvements.py:25-78 | A missing candidate, then a missing active version, gives a 404 before any write. Otherwise it inserts, deactivates the prompt, activates the new row and logs history. The candidate row is never updated. |
| Improvements.ManualPromotionLeavesNewVersionSoleActive | backend/routers/improvements.py:58-66 | The new version is the prompt's only active one. At most one version per prompt stays active, numbers stay unique, and older rows change only in their flags. |
| CandidateGenerator.CallLlm | backend/services/llm_client.py:15-20 | A call with a `response_format` keyword fails. Without it, the service's reply passes through. |
| CandidateGenerator.SliceTo | backend/services/candidate_generator.py:97 | `items[:n]` is a prefix with `min(n, len)` elements for n ≥ 0, and `len + n` elements (or none) for n < 0. |
| CandidateGenerator.CandidatePair | backend/services/candidate_generator.py:97 | An element yields a pair iff it is an object with both keys, and the pair holds their values. |
| CandidateGenerator.AllPairs | backend/services/candidate_generator.py:97-100 | Either every element yields its pair, in order, or the whole comprehension fails. |
| CandidateGenerator.Extracted | backend/services/candidate_generator.py:97-100 | At most n pairs. A non-empty result comes from a list and pairs its first elements in order. |
| CandidateGenerator.FirstListIndex | backend/services/candidate_generator.py:88-93 | It is the first list-valued entry, and None iff there is none. |
| CandidateGenerator.FindFirstList | backend/services/candidate_generator.py:88-93 | The for-else loop returns that first list, or the empty list. |
| CandidateGenerator.MetaCandidateList | backend/services/candidate_generator.py:80-95 | For a dict: "candidates", else "prompts", else the first list value, else []. A top-level list (or any non-dict) is used as is. |
| CandidateGenerator.MetaCandidates | backend/services/candidate_generator.py:79-100 | A failed call or parse gives []. At most `num_candidates` pairs. |
| CandidateGenerator.ExtractMetaCandidates | backend/services/candidate_generator.py:79-97 | The imperative extraction equals `MetaCandidates`. |
| CandidateGenerator.CandidatesKeyTakesPriority | backend/services/candidate_generator.py:82-85 | With both keys present, "candidates" is read. |
| CandidateGenerator.CotCandidates | backend/services/candidate_generator.py:126-130 | A list is used as is. A dict uses its "candidates" entry, or nothing. Anything else, or a failure, gives []. |
| CandidateGenerator.ExampleCount | backend/services/candidate_generator.py:148 | Each attempt shows `min(len, 3)` examples. |
| CandidateGenerator.FewShotPair | backend/services/candidate_generator.py:177 | The content, or "" when missing. The rationale, or "Added few-shot examples" when missing. |
| CandidateGenerator.FewShotAttempt | backend/services/candidate_generator.py:173-183 | A dict reply adds its pair. A list adds the pair of its first element when that is a dict. Anything else, including an empty list, adds nothing. |
| CandidateGenerator.FewShotCollectedBound | backend/services/candidate_generator.py:145-183 | There are at most as many pairs as attempts, and exactly as many when every reply is a dict. |
| CandidateGenerator.FewShotCandidates | backend/services/candidate_generator.py:139-185 | No samples give []. Otherwise one attempt per requested candidate (none for a negative count), with failures skipped. |
| CandidateGenerator.Dispatch | backend/services/candidate_generator.py:16-30 | "cot" and "few_shot" pick their generators. Every other name picks meta-prompting. |
| CandidateGenerator.GenerateCandidates | backend/services/candidate_generator.py:6-30 | The dispatched generator's pairs. |
| CandidateGenerator.GeneratedBound | backend/services/candidate_generator.py:97 | Every generator returns at most `num_candidates` pairs. A non-positive count gives none in few-shot. |
| CandidateGenerator.NegativeCountDropsFromTheEnd | backend/services/candidate_generator.py:97 | A count of -1 keeps all elements but the last. |
| CandidateGenerator.JsonObjectCallGeneratesNothing | backend/services/candidate_generator.py:72-77 | As written, every generator returns [] for every reply. |
| CandidateGenerator.FailingAttemptsCollectNothing | backend/services/candidate_generator.py:168-183 | When every call raises, the few-shot loop collects nothing. |
| CandidateGenerator.PlainCallKeepsWellFormedCandidates | backend/services/candidate_generator.py:79-97 | Without the undeclared keyword, a list of well-formed candidate objects yields the pairs of its first `num_candidates` elements, in order. |
| Evaluations.CreateEvaluation | backend/routers/evaluations.py:90-107 | The new record has status "processing", the start time and the request's fields. The database rejects the insert of a missing version or dataset, and the table is left unchanged. |
| Evaluations.MarkedFailed | backend/routers/evaluations.py:43-46 | The update sets "failed" and the completion time, and changes nothing else. |
| Evaluations.MarkedCompleted | backend/routers/evaluations.py:63-67 | The update sets "completed", the aggregate and the completion time, and changes nothing else. |
| Evaluations.Persisted | backend/routers/evaluations.py:69-80 | One stored row per row without an error. Its `example_index` is its position in the full list, and indices strictly increase. |
| Evaluations.PersistedCoversScoredRows | backend/routers/evaluations.py:70-80 | Every row without an error is stored under its own index. |
| Evaluations.PersistResults | backend/routers/evaluations.py:69-80 | The loop appends exactly those rows. |
| Evaluations.ScoreAndRecord | backend/routers/evaluations.py:51-87 | A non-dict input marks the record "failed" and stores nothing. Otherwise the record is marked "completed" with the run's aggregate, and the run's rows without an error are appended. The foreign keys are kept. |
| Evaluations.RunEvalTask | backend/routers/evaluations.py:19-87 | A missing evaluation or version writes nothing. No samples mark the record "failed" (nothing when the dataset is missing). A missing prompt or a non-dict input marks it "failed" and stores nothing. Otherwise the record is "completed" with the exact-match run's aggregate, and exactly that run's rows without an error are stored. Other records are untouched. |
| Datasets.ExpectedOutput | backend/services/datasets.py:70 | It is the first truthy value among answer, output and label, otherwise label's value. It is truthy iff one of them is. |
| Datasets.SampleOf | backend/services/datasets.py:66-71 | A sample carries the dataset id, and its input is the whole example. |
| Datasets.Mapped | backend/services/datasets.py:61-71 | One sample per example, in stream order. |
| Datasets.Taken | backend/services/datasets.py:61-63 | It reads at most `sample_limit` examples, and none for a limit ≤ 0. |
| Datasets.ImportHfDataset | backend/services/datasets.py:33-82 | The dataset record is created first. The inserted samples are the first min(n, limit) mapped examples, in order. The foreign keys are kept. |
| Datasets.InsertSamples | backend/services/datasets.py:58-80 | Every batch holds 1 to 20 rows, all but the last exactly 20. Concatenated, the batches are the mapped examples read. |
| Datasets.AddSample | backend/services/datasets.py:67-77 | A row joins the buffer. A buffer that reaches twenty rows is inserted as one batch and emptied. No row is lost or reordered, and the buffer stays below twenty. |

## Left out

- The language model (`backend/services/llm_client.py`): every reply or failure is a parameter. The prompts sent to it (sample and evaluation context, few-shot example text) only shape its reply and are not modelled.
- `random.sample` in the few-shot generator: which examples are chosen only changes the prompt text. The model keeps only their number.
- The LLM judges (`score_correctness_llm`, `score_clarity`): their regular-expression and float parsing are left out. The judge's number is an input that `Evaluation.JudgeScore` clamps.
- numeric_match: `float()` parsing and the 0.001 tolerance are an opaque predicate of the environment.
- tiktoken, `json.loads`, `jsonschema.validate` and `str()` of a JSON value are parameters. JSON objects are assumed to have distinct keys, as `json.loads` returns them.
- `asyncio.gather` is modelled as an order-preserving sequential map. Concurrency and the atomicity of Supabase writes are not modelled.
- Scores are reals, not IEEE floats. Rejection messages (`:.2%` formatting) are an enum. Timestamps are a `now` parameter. UUIDs are table positions.
- Inserts into existing tables succeed. An insert the database rejects makes the Supabase client raise, which FastAPI answers with an unhandled 500 and no row written. `Tables.InsertFailed` stands for that raised error. It arises where a foreign key can fail: `create_version` (prompt or parent) and `create_evaluation` (version or dataset). The `if not response.data` branches after an insert are never taken, since `execute()` raises instead of returning empty data, and are not modelled. These include the "Failed to create version/evaluation" 500s, the `cand_resp.data` and `new_v_resp.data` checks of the improvement loop, and the 500 after the version insert in `promote_candidate`.
- Exceptions from Supabase reads in `run_eval_task` are not modelled. Its `except` branch is modelled only for the exceptions the model can raise: a non-dict input, or a version whose prompt is missing.
- ImprovementLoop.RunImprovementLoop: the candidates from `generate_candidates` are the `generated` parameter. The loop uses string pairs, while the generators return JSON pairs: non-string content or rationale values, which the loop would stringify or crash on at `rationale[:50]`, are not modelled.
- Improvements.ImprovePrompt: `num_candidates` only reaches the generator, whose output is a parameter here, so its bound on `generated` is stated by `CandidateGenerator.GeneratedBound` instead.
- Evaluation.ScoreExample: the scorers run after the `try` around the generation has closed, so an exception they raise fails the row's task. That fails the whole `gather`, marks the evaluation "failed" and makes `/improve` answer 500. Two such exceptions are not modelled, and the model always yields a scored row for them:
  - `jsonschema.validate` raising `SchemaError` for an invalid `output_schema`. `Env.conforms` is total, and only `ValidationError` is caught;
  - `encoding.encode` raising `ValueError` on text holding special tokens. `Env.tokens` is total.
- Evaluation.ScoreVerbosity: requires a positive budget. The source divides by it and always passes 500.
- Selects without `.order(...)` are read in id order: the active-version lookups (backend/services/improvement_loop.py:20-23 and backend/routers/improvements.py:36, `Tables.ActiveVersion`) and the sample reads (backend/services/improvement_loop.py:32 and backend/routers/evaluations.py:36, `ImprovementLoop.SamplesOf`). Postgres promises no order for these, so a database may return another active row first or the samples in another order.
- `Tables.PromptRow` keeps only the name, the task type and the output schema. `create_prompt` inserts every field of the request body, including `content`, `input_schema` and `metadata`, which no modelled operation reads.
- `print` calls and logging are not modelled.
- These endpoints and files are not part of this model: the other endpoints (`get_prompt`, `list_promotions`, `list_evaluations`, stats, the dataset routers), the Hugging Face search and `load_dataset` (the stream is a parameter), and the server set-up.

## Findings

| source | as written | input that shows it | evidently intended | confidence | as-written member | corrected member |
|---|---|---|---|---|---|---|
| backend/routers/prompts.py:85 | The activation update filters on the version id only. | Prompt 0 has versions 0 (active) and 1. Activate id 1 through prompt 1: prompt 0 ends with two active versions. | Activate only a version of the named prompt. | high, not executed | Prompts.ActivateAcrossPromptsBreaksAtMostOne | Prompts.ActivateInPromptKeepsAtMostOne |
| backend/services/improvement_loop.py:142 | Auto-promotion numbers the new version as the active version's number plus one. | Active version 1 with a newer inactive version 2: the promoted version is also numbered 2. | Max+1, as `create_version` and `promote_candidate` number versions. | high, not executed | ImprovementLoop.AutoPromoteNumberCollides | ImprovementLoop.AutoPromoteWithNextNumberKeepsUnique |
| backend/services/candidate_generator.py:73-77 | Every generator passes `response_format` to `call_llm`, whose signature (backend/services/llm_client.py:15-20) has no such parameter. The TypeError is caught, so every generator returns [] and the loop never finds a candidate. | Any reply; e.g. a list of two well-formed candidates yields []. | Call without the keyword (or accept it) so the reply is extracted. | high, not executed | CandidateGenerator.JsonObjectCallGeneratesNothing | CandidateGenerator.PlainCallKeepsWellFormedCandidates |
