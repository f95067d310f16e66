/** Per-row scoring and aggregation (backend/services/evaluation.py).
    The language model, the tokenizer, `json.loads`, `jsonschema.validate`
    and Python's `str()` of a JSON value are not modelled: they reach the
    functions below as the parameters collected in `Env` and `Generation`. */
module Evaluation {
  import opened Wrappers
  import opened Json
  import opened Metrics
  import PromptUtils

  // ---------------------------------------------------------------------
  // The parts of the outside world a row evaluation depends on
  // ---------------------------------------------------------------------

  /** Deterministic helpers the scorers call:
      `render` is `str()` of a non-string JSON value, `parse` is
      `json.loads` (None when it raises), `conforms(instance, schema)` is
      `jsonschema.validate` not raising `ValidationError`, `tokens` is the
      length of the tiktoken encoding, `numericAgree` is the numeric_match
      comparison of two values (both parse as floats and differ by less
      than 0.001). */
  datatype Env = Env(
    render: Json -> string,
    parse: string -> Option<Json>,
    conforms: (Json, Json) -> bool,
    tokens: string -> nat,
    numericAgree: (Json, Json) -> bool)

  /** What the language model did for one row: the generation (its text,
      or the message of the exception it raised), and the number each of
      the two judge prompts answered with (None when no number could be
      read from the answer or the call raised). */
  datatype Generation = Generation(
    reply: Result<string, string>,
    correctnessJudge: Option<real>,
    clarityJudge: Option<real>)

  /** Python's `str(x)`: a string is itself, anything else is rendered. */
  function Str(env: Env, j: Json): string {
    if j.JStr? then j.s else env.render(j)
  }

  // ---------------------------------------------------------------------
  // str.strip()
  // ---------------------------------------------------------------------

  /** The characters `str.strip()` removes, those for which `str.isspace()`
      holds: tab through carriage return, the four ASCII separator
      controls, space, next line, no-break space, the Unicode space
      separators, and the line and paragraph separators. */
  predicate IsSpace(c: char) {
    || '\t' <= c <= '\r'
    || '\U{1C}' <= c <= '\U{1F}'
    || c == ' ' || c == '\U{85}' || c == '\U{A0}' || c == '\U{1680}'
    || '\U{2000}' <= c <= '\U{200A}'
    || c == '\U{2028}' || c == '\U{2029}' || c == '\U{202F}' || c == '\U{205F}' || c == '\U{3000}'
  }

  predicate AllSpace(s: string) {
    forall k :: 0 <= k < |s| ==> IsSpace(s[k])
  }

  /** `s.lstrip()`: the longest suffix of `s` not starting with whitespace. */
  function TrimLeft(s: string): (r: string)
    ensures |r| <= |s| && r == s[|s| - |r|..]
    ensures AllSpace(s[..|s| - |r|])
    ensures r == [] || !IsSpace(r[0])
  {
    if |s| > 0 && IsSpace(s[0]) then
      var t := s[1..];
      var r := TrimLeft(t);
      assert r == s[|s| - |r|..] by {
        assert t[|t| - |r|..] == s[|s| - |r|..];
      }
      assert AllSpace(s[..|s| - |r|]) by {
        assert s[..|s| - |r|] == [s[0]] + t[..|t| - |r|];
      }
      r
    else s
  }

  /** `s.rstrip()`: the longest prefix of `s` not ending with whitespace. */
  function TrimRight(s: string): (r: string)
    ensures |r| <= |s| && r == s[..|r|]
    ensures AllSpace(s[|r|..])
    ensures r == [] || !IsSpace(r[|r| - 1])
  {
    if |s| > 0 && IsSpace(s[|s| - 1]) then
      var t := s[..|s| - 1];
      var r := TrimRight(t);
      assert r == s[..|r|] by {
        assert t[..|r|] == s[..|r|];
      }
      assert AllSpace(s[|r|..]) by {
        assert s[|r|..] == t[|r|..] + [s[|s| - 1]];
      }
      r
    else s
  }

  /** `s.strip()`. */
  function Strip(s: string): string {
    TrimRight(TrimLeft(s))
  }

  lemma {:induction false} TrimLeftPadded(w: string, s: string)
    requires AllSpace(w)
    ensures TrimLeft(w + s) == TrimLeft(s)
    decreases |w|
  {
    if w != [] {
      assert (w + s)[0] == w[0] && (w + s)[1..] == w[1..] + s;
      assert TrimLeft(w + s) == TrimLeft(w[1..] + s);
      TrimLeftPadded(w[1..], s);
    } else {
      assert w + s == s;
    }
  }

  lemma {:induction false} TrimRightPadded(s: string, w: string)
    requires AllSpace(w)
    ensures TrimRight(s + w) == TrimRight(s)
    decreases |w|
  {
    if w != [] {
      assert (s + w)[|s + w| - 1] == w[|w| - 1] && (s + w)[..|s + w| - 1] == s + w[..|w| - 1];
      assert TrimRight(s + w) == TrimRight(s + w[..|w| - 1]);
      TrimRightPadded(s, w[..|w| - 1]);
    } else {
      assert s + w == s;
    }
  }

  /** Whitespace appended to `s` survives `lstrip` unless `s` is all whitespace. */
  lemma {:induction false} TrimLeftAppended(s: string, w: string)
    requires AllSpace(w)
    ensures TrimLeft(s) == [] ==> TrimLeft(s + w) == []
    ensures TrimLeft(s) != [] ==> TrimLeft(s + w) == TrimLeft(s) + w
    decreases |s|
  {
    if s == [] {
      assert s + w == w;
      TrimLeftPadded(w, []);
      assert w + [] == w;
    } else if IsSpace(s[0]) {
      assert (s + w)[1..] == s[1..] + w;
      TrimLeftAppended(s[1..], w);
    }
  }

  /** Whitespace around a text does not change what `strip` gives. */
  lemma StripPadded(w1: string, s: string, w2: string)
    requires AllSpace(w1) && AllSpace(w2)
    ensures Strip(w1 + s + w2) == Strip(s)
  {
    assert w1 + s + w2 == w1 + (s + w2);
    TrimLeftPadded(w1, s + w2);
    TrimLeftAppended(s, w2);
    if TrimLeft(s) != [] {
      TrimRightPadded(TrimLeft(s), w2);
    }
  }

  // ---------------------------------------------------------------------
  // The scorers
  // ---------------------------------------------------------------------

  const ExactMatch := "exact_match"
  const NumericMatch := "numeric_match"
  const LlmJudge := "llm_judge"

  /** `score_correctness`. */
  function ScoreCorrectness(env: Env, expected: Json, actual: Json, strategy: string): (r: real)
    ensures actual.JNull? ==> r == 0.0
    ensures r == 0.0 || r == 1.0
    ensures strategy == ExactMatch ==>
              (r == 1.0 <==> !actual.JNull? && Strip(Str(env, expected)) == Strip(Str(env, actual)))
    ensures strategy == NumericMatch ==> (r == 1.0 <==> !actual.JNull? && env.numericAgree(expected, actual))
    ensures strategy != ExactMatch && strategy != NumericMatch ==> r == 0.0
  {
    if actual.JNull? then 0.0
    else if strategy == ExactMatch then
      if Strip(Str(env, expected)) == Strip(Str(env, actual)) then 1.0 else 0.0
    else if strategy == NumericMatch then
      if env.numericAgree(expected, actual) then 1.0 else 0.0
    else 0.0
  }

  /** Exact matching ignores whitespace around either side and does not
      depend on which side is the expected one. */
  lemma ExactMatchIgnoresPadding(env: Env, w1: string, e: string, w2: string, actual: string)
    requires AllSpace(w1) && AllSpace(w2)
    ensures ScoreCorrectness(env, JStr(w1 + e + w2), JStr(actual), ExactMatch)
            == ScoreCorrectness(env, JStr(e), JStr(actual), ExactMatch)
  {
    var padded := w1 + e + w2;
    StripPadded(w1, e, w2);
    assert Strip(Str(env, JStr(padded))) == Strip(Str(env, JStr(e)));
    ExactMatchDependsOnStripped(env, JStr(padded), JStr(e), JStr(actual));
  }

  /** A trailing no-break space is whitespace to `str.strip()`: "42" with
      one after it matches "42". */
  lemma NoBreakSpaceIsStripped(env: Env)
    ensures ScoreCorrectness(env, JStr("42\U{A0}"), JStr("42"), ExactMatch) == 1.0
  {
    assert "42\U{A0}" == [] + "42" + "\U{A0}";
    ExactMatchIgnoresPadding(env, [], "42", "\U{A0}", "42");
  }

  /** Exact matching sees the expected value only through its stripped
      rendering. */
  lemma ExactMatchDependsOnStripped(env: Env, e1: Json, e2: Json, actual: Json)
    requires Strip(Str(env, e1)) == Strip(Str(env, e2))
    ensures ScoreCorrectness(env, e1, actual, ExactMatch) == ScoreCorrectness(env, e2, actual, ExactMatch)
  {
  }

  /** The number an LLM judge answered with, clamped into [0, 1]; 0.5 when
      there was none (`score_correctness_llm`, `score_clarity`). */
  function JudgeScore(answer: Option<real>): (r: real)
    ensures 0.0 <= r <= 1.0
    ensures answer.None? ==> r == 0.5
    ensures answer.Some? && 0.0 <= answer.value <= 1.0 ==> r == answer.value
  {
    match answer
    case None => 0.5
    case Some(x) => if x < 0.0 then 0.0 else if x > 1.0 then 1.0 else x
  }

  /** `if output_schema:` — a schema is given when it is present and truthy. */
  predicate SchemaGiven(schema: Option<Json>) {
    schema.Some? && Truthy(schema.value)
  }

  /** `score_format_adherence`: a string output is parsed first. */
  function ScoreFormatAdherence(env: Env, output: Json, schema: Option<Json>): (r: real)
    ensures r == 0.0 || r == 1.0
    ensures !SchemaGiven(schema) ==> r == 1.0
    ensures SchemaGiven(schema) && output.JStr? ==>
              (r == 1.0 <==> env.parse(output.s).Some? && env.conforms(env.parse(output.s).value, schema.value))
    ensures SchemaGiven(schema) && !output.JStr? ==> (r == 1.0 <==> env.conforms(output, schema.value))
  {
    if !SchemaGiven(schema) then 1.0
    else if output.JStr? then
      match env.parse(output.s)
      case None => 0.0
      case Some(j) => if env.conforms(j, schema.value) then 1.0 else 0.0
    else if env.conforms(output, schema.value) then 1.0 else 0.0
  }

  /** The token budget `score_verbosity` is always called with. */
  const DefaultMaxTokens: nat := 500

  function Min(x: real, y: real): real {
    if x <= y then x else y
  }

  /** `score_verbosity`, given the token count of the output. */
  function ScoreVerbosity(tokenCount: nat, maxTokens: nat): (r: real)
    requires maxTokens > 0
    ensures tokenCount <= maxTokens ==> r == 1.0
    ensures tokenCount > maxTokens ==> 0.5 <= r < 1.0
    ensures tokenCount >= 2 * maxTokens ==> r == 0.5
  {
    if tokenCount <= maxTokens then 1.0
    else
      var excess := tokenCount - maxTokens;
      var ratio := excess as real / maxTokens as real;
      RatioBounds(excess, maxTokens);
      var penalty := Min(0.5, ratio);
      if 1.0 - penalty < 0.0 then 0.0 else 1.0 - penalty
  }

  /** A positive excess over a positive budget is a positive ratio, at
      least 1 once the excess reaches the budget. */
  lemma RatioBounds(excess: nat, budget: nat)
    requires 0 < excess && 0 < budget
    ensures 0.0 < excess as real / budget as real
    ensures budget <= excess ==> 1.0 <= excess as real / budget as real
  {
    var q := excess as real / budget as real;
    assert q * budget as real == excess as real;
  }

  /** More tokens never score better. */
  lemma VerbosityNonIncreasing(t1: nat, t2: nat, maxTokens: nat)
    requires maxTokens > 0 && t1 <= t2
    ensures ScoreVerbosity(t2, maxTokens) <= ScoreVerbosity(t1, maxTokens)
  {
    if t1 > maxTokens {
      var m := maxTokens as real;
      assert (t1 - maxTokens) as real / m <= (t2 - maxTokens) as real / m by {
        assert (t1 - maxTokens) as real <= (t2 - maxTokens) as real;
      }
    }
  }

  // ---------------------------------------------------------------------
  // evaluate_single_example
  // ---------------------------------------------------------------------

  /** The `(key, str(value))` pairs the formatting loop substitutes. */
  function Stringified(env: Env, vars: seq<(string, Json)>): (r: seq<(string, string)>)
    ensures |r| == |vars|
    ensures forall i :: 0 <= i < |vars| ==> r[i] == (vars[i].0, Str(env, vars[i].1))
  {
    if vars == [] then [] else Stringified(env, vars[..|vars| - 1]) + [(vars[|vars| - 1].0, Str(env, vars[|vars| - 1].1))]
  }

  /** The formatting loop of `evaluate_single_example`: it replaces every
      key's placeholder unconditionally, and so gives exactly what
      `substitute_variables` gives for the stringified values. */
  method FormatPrompt(env: Env, template: string, inputVars: seq<(string, Json)>) returns (formatted: string)
    ensures formatted == PromptUtils.Substituted(template, Stringified(env, inputVars))
  {
    ghost var pairs := Stringified(env, inputVars);
    formatted := template;
    for i := 0 to |inputVars|
      invariant formatted == PromptUtils.Substituted(template, pairs[..i])
    {
      var (key, value) := inputVars[i];
      assert pairs[..i + 1][..i] == pairs[..i];
      formatted := PromptUtils.ReplaceAll(formatted, PromptUtils.Placeholder(key), Str(env, value));
    }
    assert pairs[..|inputVars|] == pairs;
  }

  /** `re.search(r"(\{.*\})", s, re.DOTALL)`: the text from the first `{`
      to the last `}`, when some `}` follows that `{`. */
  function JsonBlock(s: string): (r: Option<string>)
    ensures r.Some? <==> exists i, j :: 0 <= i < j < |s| && s[i] == '{' && s[j] == '}'
    ensures r.Some? ==> && FirstIndexOf(s, '{').Some? && LastIndexOf(s, '}').Some?
                        && r.value == s[FirstIndexOf(s, '{').value..LastIndexOf(s, '}').value + 1]
    ensures r.Some? ==> |r.value| >= 2 && r.value[0] == '{' && r.value[|r.value| - 1] == '}'
  {
    match FirstIndexOf(s, '{')
    case None => None
    case Some(i) =>
      match LastIndexOf(s, '}')
      case None => None
      case Some(j) => if i < j then Some(s[i..j + 1]) else None
  }

  function FirstIndexOf(s: string, c: char): (r: Option<nat>)
    ensures r.None? ==> forall k :: 0 <= k < |s| ==> s[k] != c
    ensures r.Some? ==> r.value < |s| && s[r.value] == c && forall k :: 0 <= k < r.value ==> s[k] != c
  {
    if s == [] then None
    else if s[0] == c then Some(0)
    else
      match FirstIndexOf(s[1..], c)
      case None => None
      case Some(k) => Some(k + 1)
  }

  function LastIndexOf(s: string, c: char): (r: Option<nat>)
    ensures r.None? ==> forall k :: 0 <= k < |s| ==> s[k] != c
    ensures r.Some? ==> r.value < |s| && s[r.value] == c && forall k :: r.value < k < |s| ==> s[k] != c
  {
    if s == [] then None
    else if s[|s| - 1] == c then Some(|s| - 1)
    else LastIndexOf(s[..|s| - 1], c)
  }

  /** The value `actual_output` ends with: the reply text, or, when a schema
      is given and the JSON block (or, without one, the whole reply)
      parses, the parsed value. */
  function ActualOutput(env: Env, text: string, schema: Option<Json>): (r: Json)
    ensures !SchemaGiven(schema) ==> r == JStr(text)
    ensures SchemaGiven(schema) && env.parse(ParseTarget(text)).Some? ==> r == env.parse(ParseTarget(text)).value
    ensures env.parse(ParseTarget(text)).None? ==> r == JStr(text)
  {
    if !SchemaGiven(schema) then JStr(text)
    else
      match env.parse(ParseTarget(text))
      case Some(j) => j
      case None => JStr(text)
  }

  /** The text handed to `json.loads`: the JSON block when there is one,
      else the whole reply. */
  function ParseTarget(text: string): string {
    match JsonBlock(text)
    case Some(block) => block
    case None => text
  }

  /** One row of `results`: the error form carries the exception message and
      all-zero scores. */
  datatype ExampleResult =
    | Failed(error: string, scores: Scores)
    | Scored(input: seq<(string, Json)>, expectedOutput: Json, actualOutput: Json, scores: Scores)

  /** `evaluate_single_example` for a dict input, after the formatting
      loop has produced `formatted`. */
  function ScoreExample(env: Env, formatted: string, input: seq<(string, Json)>, expected: Json,
                        schema: Option<Json>, strategy: string, gen: Generation): (r: ExampleResult)
    ensures gen.reply.Err? ==> r == Failed(gen.reply.error, Zero)
    ensures gen.reply.Ok? ==> r.Scored? && r.input == input && r.expectedOutput == expected
                              && r.actualOutput == ActualOutput(env, gen.reply.value, schema)
    ensures r.scores.InUnitRange()
    ensures gen.reply.Ok? ==>
              && r.scores.formatAdherence == ScoreFormatAdherence(env, r.actualOutput, schema)
              && r.scores.verbosity == ScoreVerbosity(env.tokens(gen.reply.value), DefaultMaxTokens)
              && r.scores.clarity == JudgeScore(gen.clarityJudge)
              && (strategy != LlmJudge ==> r.scores.correctness == ScoreCorrectness(env, expected, r.actualOutput, strategy))
  {
    match gen.reply
    case Err(message) => Failed(message, Zero)
    case Ok(text) =>
      var actual := ActualOutput(env, text, schema);
      var correctness :=
        if strategy == LlmJudge then JudgeScore(gen.correctnessJudge)
        else ScoreCorrectness(env, expected, actual, strategy);
      var scores := Scores(correctness, ScoreFormatAdherence(env, actual, schema),
                           JudgeScore(gen.clarityJudge),
                           ScoreVerbosity(env.tokens(text), DefaultMaxTokens));
      Scored(input, expected, actual, scores)
  }

  // ---------------------------------------------------------------------
  // run_full_evaluation
  // ---------------------------------------------------------------------

  /** A `dataset_samples` row as the evaluation reads it. */
  datatype Sample = Sample(input: Json, expectedOutput: Json)

  /** The only failure of a full evaluation: a sample whose input is not a
      dict makes the formatting loop raise, and `asyncio.gather` passes the
      exception on. */
  datatype EvalError = InputNotADict

  /** `{"aggregate_scores": …, "results": …}`. */
  datatype FullEvaluation = FullEvaluation(aggregateScores: Scores, results: seq<ExampleResult>)

  /** The per-metric sum of the rows without an error, in row order. */
  function SumScored(rows: seq<ExampleResult>): Scores {
    SumScoredTo(rows, |rows|)
  }

  /** The sum over the first `n` rows. */
  function SumScoredTo(rows: seq<ExampleResult>, n: nat): Scores
    requires n <= |rows|
  {
    if n == 0 then Zero
    else
      var sum := SumScoredTo(rows, n - 1);
      if rows[n - 1].Failed? then sum else sum.Plus(rows[n - 1].scores)
  }

  /** The number of rows without an error. */
  function ScoredCount(rows: seq<ExampleResult>): (n: nat)
    ensures n <= |rows|
  {
    if rows == [] then 0
    else ScoredCount(rows[..|rows| - 1]) + (if rows[|rows| - 1].Failed? then 0 else 1)
  }

  /** The aggregation loop: the error rows are skipped when summing, but
      the divisor is the number of all rows. */
  method Aggregate(rows: seq<ExampleResult>) returns (aggregate: Scores)
    ensures |rows| == 0 ==> aggregate == Zero
    ensures |rows| > 0 ==> aggregate == SumScored(rows).DividedBy(|rows|)
  {
    var total := Zero;
    var count := |rows|;
    if count > 0 {
      for i := 0 to |rows|
        invariant total == SumScoredTo(rows, i)
      {
        if !rows[i].Failed? {
          total := total.Plus(rows[i].scores);
        }
      }
      aggregate := total.DividedBy(count);
    } else {
      aggregate := total;
    }
  }

  /** Every summed metric lies between 0 and the number of summed rows. */
  lemma SumScoredBounds(rows: seq<ExampleResult>)
    requires forall i :: 0 <= i < |rows| ==> rows[i].scores.InUnitRange()
    ensures var s := SumScored(rows); var n := ScoredCount(rows) as real;
            && 0.0 <= s.correctness <= n && 0.0 <= s.formatAdherence <= n
            && 0.0 <= s.clarity <= n && 0.0 <= s.verbosity <= n
  {
    SumScoredToBounds(rows, |rows|);
    assert rows[..|rows|] == rows;
  }

  lemma {:induction false} SumScoredToBounds(rows: seq<ExampleResult>, n: nat)
    requires n <= |rows|
    requires forall i :: 0 <= i < |rows| ==> rows[i].scores.InUnitRange()
    ensures var s := SumScoredTo(rows, n); var m := ScoredCount(rows[..n]) as real;
            && 0.0 <= s.correctness <= m && 0.0 <= s.formatAdherence <= m
            && 0.0 <= s.clarity <= m && 0.0 <= s.verbosity <= m
  {
    if n > 0 {
      SumScoredToBounds(rows, n - 1);
      assert rows[..n][..n - 1] == rows[..n - 1];
      var last := rows[n - 1];
      assert last.scores.InUnitRange();
      assert last.scores.Values()[0] == last.scores.correctness;
      assert last.scores.Values()[1] == last.scores.formatAdherence;
      assert last.scores.Values()[2] == last.scores.clarity;
      assert last.scores.Values()[3] == last.scores.verbosity;
    }
  }

  /** Row scores in [0, 1] give aggregates in [0, 1]. */
  lemma AggregateInUnitRange(rows: seq<ExampleResult>)
    requires |rows| > 0
    requires forall i :: 0 <= i < |rows| ==> rows[i].scores.InUnitRange()
    ensures SumScored(rows).DividedBy(|rows|).InUnitRange()
  {
    SumScoredBounds(rows);
    var s, n := SumScored(rows), |rows| as real;
    var m := ScoredCount(rows) as real;
    assert m <= n;
    DivisionBounds(s.correctness, m, n);
    DivisionBounds(s.formatAdherence, m, n);
    DivisionBounds(s.clarity, m, n);
    DivisionBounds(s.verbosity, m, n);
  }

  lemma DivisionBounds(x: real, m: real, n: real)
    requires 0.0 <= x <= m <= n && n > 0.0
    ensures 0.0 <= x / n <= 1.0
  {
    assert x / n <= n / n;
  }

  /** The divisor counts the error rows: when every row that succeeded is
      fully correct, the aggregate correctness is the share of rows that
      succeeded, not 1. */
  lemma {:induction false} SumOfPerfectRows(rows: seq<ExampleResult>, n: nat)
    requires n <= |rows|
    requires forall i :: 0 <= i < |rows| && rows[i].Scored? ==> rows[i].scores.correctness == 1.0
    ensures SumScoredTo(rows, n).correctness == ScoredCount(rows[..n]) as real
  {
    if n > 0 {
      SumOfPerfectRows(rows, n - 1);
      assert rows[..n][..n - 1] == rows[..n - 1];
    }
  }

  lemma AggregateCountsFailedRows(rows: seq<ExampleResult>)
    requires |rows| > 0
    requires forall i :: 0 <= i < |rows| && rows[i].Scored? ==> rows[i].scores.correctness == 1.0
    ensures SumScored(rows).DividedBy(|rows|).correctness == ScoredCount(rows) as real / |rows| as real
  {
    SumOfPerfectRows(rows, |rows|);
    assert rows[..|rows|] == rows;
  }

  /** Every sample's input is a dict. */
  predicate AllDicts(samples: seq<Sample>) {
    forall i :: 0 <= i < |samples| ==> samples[i].input.JObj?
  }

  /** `evaluate_single_example` on a sample whose input is a dict: the
      template formatted with that input, then scored. */
  function ExampleRow(env: Env, template: string, sample: Sample, schema: Option<Json>,
                      strategy: string, gen: Generation): (r: ExampleResult)
    requires sample.input.JObj?
    ensures r.Failed? <==> gen.reply.Err?
    ensures r.scores.InUnitRange()
  {
    ScoreExample(env, PromptUtils.Substituted(template, Stringified(env, sample.input.fields)),
                 sample.input.fields, sample.expectedOutput, schema, strategy, gen)
  }

  /** What `run_full_evaluation` returns: the error of a sample whose input
      is not a dict, or one row per sample, in sample order, and the mean
      of the rows without an error over the number of all rows. Sample
      `i` is answered by `gens(i)`. */
  function FullRun(env: Env, template: string, samples: seq<Sample>, schema: Option<Json>,
                   strategy: string, gens: nat -> Generation): (r: Result<FullEvaluation, EvalError>)
    ensures r.Err? <==> exists i :: 0 <= i < |samples| && !samples[i].input.JObj?
    ensures r.Ok? ==> |r.value.results| == |samples|
    ensures r.Ok? ==> forall i :: 0 <= i < |samples| ==> (r.value.results[i].Failed? <==> gens(i).reply.Err?)
    ensures r.Ok? ==> r.value.aggregateScores.InUnitRange()
    ensures r.Ok? && |samples| == 0 ==> r.value.aggregateScores == Zero
  {
    if !AllDicts(samples) then Err(InputNotADict)
    else
      var rows := seq(|samples|, i requires 0 <= i < |samples| => ExampleRow(env, template, samples[i], schema, strategy, gens(i)));
      if |rows| == 0 then
        assert Zero.Values() == [0.0, 0.0, 0.0, 0.0];
        Ok(FullEvaluation(Zero, rows))
      else
        assert forall i :: 0 <= i < |rows| ==> rows[i] == ExampleRow(env, template, samples[i], schema, strategy, gens(i));
        AggregateInUnitRange(rows);
        Ok(FullEvaluation(SumScored(rows).DividedBy(|rows|), rows))
  }

  /** The rows `asyncio.gather` returns: one per sample, in sample order,
      or the exception of a sample whose input is not a dict. */
  method EvaluateAll(env: Env, template: string, samples: seq<Sample>, schema: Option<Json>,
                     strategy: string, gens: nat -> Generation) returns (r: Result<seq<ExampleResult>, EvalError>)
    ensures r.Err? <==> !AllDicts(samples)
    ensures r.Ok? ==> |r.value| == |samples| && forall i :: 0 <= i < |samples| ==>
              r.value[i] == ScoreExample(env, PromptUtils.Substituted(template, Stringified(env, samples[i].input.fields)),
                                         samples[i].input.fields, samples[i].expectedOutput, schema, strategy, gens(i))
  {
    var rows: seq<ExampleResult> := [];
    for i := 0 to |samples|
      invariant forall k :: 0 <= k < i ==> samples[k].input.JObj?
      invariant |rows| == i
      invariant forall k :: 0 <= k < i ==>
                  rows[k] == ScoreExample(env, PromptUtils.Substituted(template, Stringified(env, samples[k].input.fields)),
                                          samples[k].input.fields, samples[k].expectedOutput, schema, strategy, gens(k))
    {
      var sample := samples[i];
      if !sample.input.JObj? {
        return Err(InputNotADict);
      }
      var formatted := FormatPrompt(env, template, sample.input.fields);
      rows := rows + [ScoreExample(env, formatted, sample.input.fields, sample.expectedOutput, schema, strategy, gens(i))];
    }
    return Ok(rows);
  }

  /** `run_full_evaluation`: the rows, then the aggregation loop. */
  method RunFullEvaluation(env: Env, template: string, samples: seq<Sample>, schema: Option<Json>,
                           strategy: string, gens: nat -> Generation) returns (r: Result<FullEvaluation, EvalError>)
    ensures r == FullRun(env, template, samples, schema, strategy, gens)
  {
    var rows := EvaluateAll(env, template, samples, schema, strategy, gens);
    if rows.Err? {
      assert !AllDicts(samples) && rows.error == InputNotADict;
      return Err(rows.error);
    }
    assert rows.value == FullRun(env, template, samples, schema, strategy, gens).value.results;
    var aggregate := Aggregate(rows.value);
    return Ok(FullEvaluation(aggregate, rows.value));
  }
}
