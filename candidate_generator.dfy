/** Candidate generation (backend/services/candidate_generator.py): the
    dispatch on the method name, the extraction of `(content, rationale)`
    pairs from the parsed reply of the meta-prompting and chain-of-thought
    generators, and the accumulation loop of the few-shot generator. The
    language model's raw replies are inputs; `json.loads` is the
    environment's `parse`. The prompts sent to the model only shape its
    reply and are not modelled. */
module CandidateGenerator {
  import opened Wrappers
  import opened Json

  // ---------------------------------------------------------------------
  // The call into the language model
  // ---------------------------------------------------------------------

  /** The keyword arguments of a `call_llm` call. */
  datatype LlmCall = LlmCall(temperature: real, maxTokens: Option<nat>, responseFormat: Option<string>)

  /** What every generator passes: temperature 0.7 and a JSON response format. */
  const JsonObjectCall: LlmCall := LlmCall(0.7, None, Some("json_object"))

  /** The same call without the keyword `call_llm` does not declare. */
  const PlainCall: LlmCall := LlmCall(0.7, None, None)

  /** The outcome of `call_llm`: `reply` is the service's answer or its
      failure. `call_llm` declares `messages`, `model`, `temperature` and
      `max_tokens` only, so a `response_format` keyword raises a TypeError
      before any request is made. */
  function CallLlm(call: LlmCall, reply: Result<string, string>): (r: Result<string, string>)
    ensures call.responseFormat.None? ==> r == reply
    ensures call.responseFormat.Some? ==> r.Err?
  {
    if call.responseFormat.Some? then Err("TypeError: unexpected keyword argument 'response_format'")
    else reply
  }

  /** `json.loads` of a successful reply; None when the call or the parse fails. */
  function Parsed(parse: string -> Option<Json>, response: Result<string, string>): (r: Option<Json>)
    ensures response.Err? ==> r.None?
  {
    match response
    case Ok(text) => parse(text)
    case Err(_) => None
  }

  // ---------------------------------------------------------------------
  // Shared extraction: `[(c["content"], c["rationale"]) for c in candidates[:n]]`
  // ---------------------------------------------------------------------

  /** Python's `items[:n]`: a prefix, of length `n` at most when `n` is not
      negative, and `|items| + n` long (or empty) when it is. */
  function SliceTo<T>(items: seq<T>, n: int): (r: seq<T>)
    ensures r <= items
    ensures 0 <= n ==> |r| == if n < |items| then n else |items|
    ensures n < 0 ==> |r| == if |items| + n > 0 then |items| + n else 0
  {
    if 0 <= n then (if n < |items| then items[..n] else items)
    else if |items| + n > 0 then items[..|items| + n]
    else []
  }

  /** `(c["content"], c["rationale"])` for one element: only an object
      with both keys yields a pair; any other element raises. */
  function CandidatePair(c: Json): (r: Option<(Json, Json)>)
    ensures r.Some? <==> c.JObj? && HasKey(c.fields, "content") && HasKey(c.fields, "rationale")
    ensures r.Some? ==> Lookup(c.fields, "content") == Some(r.value.0) && Lookup(c.fields, "rationale") == Some(r.value.1)
  {
    match c
    case JObj(fields) =>
      if HasKey(fields, "content") && HasKey(fields, "rationale") then
        Some((Get(fields, "content", JNull), Get(fields, "rationale", JNull)))
      else None
    case _ => None
  }

  /** The list comprehension: every element yields its pair, or the first
      element that cannot raises and nothing is kept. */
  function AllPairs(items: seq<Json>): (r: Option<seq<(Json, Json)>>)
    ensures r.Some? <==> forall i :: 0 <= i < |items| ==> CandidatePair(items[i]).Some?
    ensures r.Some? ==> |r.value| == |items|
    ensures r.Some? ==> forall i :: 0 <= i < |items| ==> r.value[i] == CandidatePair(items[i]).value
  {
    if items == [] then Some([])
    else
      match (CandidatePair(items[0]), AllPairs(items[1..]))
      case (Some(p), Some(rest)) =>
        assert forall i :: 1 <= i < |items| ==> items[i] == items[1..][i - 1];
        Some([p] + rest)
      case (None, _) => None
      case (_, None) =>
        assert exists i :: 0 <= i < |items[1..]| && CandidatePair(items[1..][i]).None?;
        None
  }

  /** The pairs of the first `n` elements of a candidate list; a value
      that is not a list (slicing or indexing it raises, or the slice is
      empty) yields nothing. */
  function Extracted(candidates: Json, n: int): (r: seq<(Json, Json)>)
    ensures 0 <= n ==> |r| <= n
    ensures r != [] ==> candidates.JArr? && |r| == |SliceTo(candidates.items, n)|
    ensures r != [] ==> forall k :: 0 <= k < |r| ==> k < |candidates.items| && CandidatePair(candidates.items[k]) == Some(r[k])
    ensures candidates.JArr? && AllPairs(SliceTo(candidates.items, n)).Some? ==>
              r == AllPairs(SliceTo(candidates.items, n)).value
  {
    match candidates
    case JArr(items) =>
      var sliced := SliceTo(items, n);
      assert forall k :: 0 <= k < |sliced| ==> sliced[k] == items[k];
      (match AllPairs(sliced)
       case Some(pairs) => pairs
       case None => [])
    case _ => []
  }

  // ---------------------------------------------------------------------
  // generate_meta_prompting_candidates
  // ---------------------------------------------------------------------

  /** The index of the first list-valued entry of a dict. */
  function FirstListIndex(fields: seq<(string, Json)>): (r: Option<nat>)
    ensures r.None? <==> forall i :: 0 <= i < |fields| ==> !fields[i].1.JArr?
    ensures r.Some? ==> r.value < |fields| && fields[r.value].1.JArr?
    ensures r.Some? ==> forall i :: 0 <= i < r.value ==> !fields[i].1.JArr?
  {
    if fields == [] then None
    else if fields[0].1.JArr? then Some(0)
    else
      match FirstListIndex(fields[1..])
      case None => None
      case Some(k) => Some(k + 1)
  }

  /** The `for ... else` search over the dict's values: the first list,
      or the empty list when no value is one. */
  method FindFirstList(fields: seq<(string, Json)>) returns (candidates: Json)
    ensures FirstListIndex(fields).Some? ==> candidates == fields[FirstListIndex(fields).value].1
    ensures FirstListIndex(fields).None? ==> candidates == JArr([])
  {
    for i := 0 to |fields|
      invariant forall k :: 0 <= k < i ==> !fields[k].1.JArr?
    {
      if fields[i].1.JArr? {
        assert FirstListIndex(fields) == Some(i);
        return fields[i].1;
      }
    }
    return JArr([]);
  }

  /** The candidate list the meta generator picks out of the parsed reply:
      a dict's "candidates" entry, else its "prompts" entry, else its first
      list value, else the empty list; anything else is used as is. */
  function MetaCandidateList(data: Json): (r: Json)
    ensures data.JObj? && HasKey(data.fields, "candidates") ==> Some(r) == Lookup(data.fields, "candidates")
    ensures data.JObj? && !HasKey(data.fields, "candidates") && HasKey(data.fields, "prompts") ==>
              Some(r) == Lookup(data.fields, "prompts")
    ensures data.JObj? && !HasKey(data.fields, "candidates") && !HasKey(data.fields, "prompts") ==>
              && r.JArr?
              && r == (if FirstListIndex(data.fields).Some? then data.fields[FirstListIndex(data.fields).value].1 else JArr([]))
    ensures !data.JObj? ==> r == data
  {
    match data
    case JObj(fields) =>
      if HasKey(fields, "candidates") then Get(fields, "candidates", JNull)
      else if HasKey(fields, "prompts") then Get(fields, "prompts", JNull)
      else
        (match FirstListIndex(fields)
         case Some(k) => fields[k].1
         case None => JArr([]))
    case _ => data
  }

  /** `generate_meta_prompting_candidates` after the call: nothing when
      the call or the parse fails, else the pairs of the picked list. */
  function MetaCandidates(data: Option<Json>, n: int): (r: seq<(Json, Json)>)
    ensures data.None? ==> r == []
    ensures 0 <= n ==> |r| <= n
  {
    match data
    case None => []
    case Some(d) => Extracted(MetaCandidateList(d), n)
  }

  /** The extraction step as the source runs it, with the `for ... else`
      search as a loop. */
  method ExtractMetaCandidates(data: Option<Json>, n: int) returns (r: seq<(Json, Json)>)
    ensures r == MetaCandidates(data, n)
  {
    if data.None? {
      return [];
    }
    var d := data.value;
    var candidates: Json;
    if d.JObj? {
      if HasKey(d.fields, "candidates") {
        candidates := Get(d.fields, "candidates", JNull);
      } else if HasKey(d.fields, "prompts") {
        candidates := Get(d.fields, "prompts", JNull);
      } else {
        candidates := FindFirstList(d.fields);
      }
    } else {
      candidates := d;
    }
    r := Extracted(candidates, n);
  }

  /** A dict holding both keys is read through "candidates", whatever its
      "prompts" entry holds. */
  lemma CandidatesKeyTakesPriority(fields: seq<(string, Json)>, n: int)
    requires HasKey(fields, "candidates") && HasKey(fields, "prompts")
    ensures MetaCandidates(Some(JObj(fields)), n) == Extracted(Lookup(fields, "candidates").value, n)
  {
  }

  // ---------------------------------------------------------------------
  // generate_cot_candidates
  // ---------------------------------------------------------------------

  /** `data if isinstance(data, list) else data.get("candidates", [])`;
      on a value that is neither, `.get` raises and nothing is kept. */
  function CotCandidates(data: Option<Json>, n: int): (r: seq<(Json, Json)>)
    ensures data.None? ==> r == []
    ensures 0 <= n ==> |r| <= n
    ensures data.Some? && data.value.JArr? ==> r == Extracted(data.value, n)
    ensures data.Some? && data.value.JObj? && HasKey(data.value.fields, "candidates") ==>
              r == Extracted(Lookup(data.value.fields, "candidates").value, n)
    ensures data.Some? && data.value.JObj? && !HasKey(data.value.fields, "candidates") ==> r == []
    ensures data.Some? && !data.value.JArr? && !data.value.JObj? ==> r == []
  {
    match data
    case Some(JArr(_)) => Extracted(data.value, n)
    case Some(JObj(fields)) => Extracted(Get(fields, "candidates", JArr([])), n)
    case _ => []
  }

  // ---------------------------------------------------------------------
  // generate_few_shot_candidates
  // ---------------------------------------------------------------------

  const DefaultFewShotRationale: string := "Added few-shot examples"

  /** The number of examples each attempt shows the model: `min(len, 3)`. */
  function ExampleCount(sampleCount: nat): (k: nat)
    ensures k <= 3 && k <= sampleCount
    ensures sampleCount > 0 ==> k > 0
    ensures k == 3 || k == sampleCount
  {
    if sampleCount < 3 then sampleCount else 3
  }

  /** The pair `.get("content", "")`, `.get("rationale", ...)` of one object. */
  function FewShotPair(fields: seq<(string, Json)>): (p: (Json, Json))
    ensures HasKey(fields, "content") ==> Some(p.0) == Lookup(fields, "content")
    ensures !HasKey(fields, "content") ==> p.0 == JStr("")
    ensures HasKey(fields, "rationale") ==> Some(p.1) == Lookup(fields, "rationale")
    ensures !HasKey(fields, "rationale") ==> p.1 == JStr(DefaultFewShotRationale)
  {
    (Get(fields, "content", JStr("")), Get(fields, "rationale", JStr(DefaultFewShotRationale)))
  }

  /** What one attempt appends: the pair of a dict reply, of the first
      element of a non-empty list reply (which raises unless it is a
      dict), and nothing otherwise. */
  function FewShotAttempt(data: Option<Json>): (r: seq<(Json, Json)>)
    ensures |r| <= 1
    ensures data.Some? && data.value.JObj? ==> r == [FewShotPair(data.value.fields)]
    ensures r != [] ==> data.Some? && (data.value.JObj? || data.value.JArr?)
    ensures data.Some? && data.value.JArr? ==>
              (r != [] <==> data.value.items != [] && data.value.items[0].JObj?)
  {
    match data
    case Some(JObj(fields)) => [FewShotPair(fields)]
    case Some(JArr(items)) => if items != [] && items[0].JObj? then [FewShotPair(items[0].fields)] else []
    case _ => []
  }

  /** The pairs collected by the first `attempts` attempts; attempt `i`
      shows the model `k` examples and gets `replies(i, k)`. */
  function FewShotCollected(call: LlmCall, parse: string -> Option<Json>,
                            replies: (nat, nat) -> Result<string, string>, k: nat, attempts: nat)
    : seq<(Json, Json)>
  {
    if attempts == 0 then []
    else FewShotCollected(call, parse, replies, k, attempts - 1)
         + FewShotAttempt(Parsed(parse, CallLlm(call, replies(attempts - 1, k))))
  }

  /** Each attempt adds at most one pair, so the generator returns at most
      as many pairs as attempts, and exactly as many when every reply is
      a dict. */
  lemma {:induction false} FewShotCollectedBound(call: LlmCall, parse: string -> Option<Json>,
                                                 replies: (nat, nat) -> Result<string, string>, k: nat, attempts: nat)
    ensures |FewShotCollected(call, parse, replies, k, attempts)| <= attempts
    ensures (forall i :: 0 <= i < attempts ==> Parsed(parse, CallLlm(call, replies(i, k))).Some?
                                                && Parsed(parse, CallLlm(call, replies(i, k))).value.JObj?) ==>
              |FewShotCollected(call, parse, replies, k, attempts)| == attempts
  {
    if attempts > 0 {
      FewShotCollectedBound(call, parse, replies, k, attempts - 1);
    }
  }

  /** `generate_few_shot_candidates`: no samples, no attempt; otherwise
      `num_candidates` attempts (none for a negative count), a failed
      attempt being skipped. */
  method FewShotCandidates(call: LlmCall, parse: string -> Option<Json>, num: int, sampleCount: nat,
                           replies: (nat, nat) -> Result<string, string>)
    returns (candidates: seq<(Json, Json)>)
    ensures sampleCount == 0 ==> candidates == []
    ensures sampleCount > 0 ==>
              candidates == FewShotCollected(call, parse, replies, ExampleCount(sampleCount), if num > 0 then num else 0)
  {
    if sampleCount == 0 {
      return [];
    }
    candidates := [];
    var attempts := if num > 0 then num else 0;
    for i := 0 to attempts
      invariant candidates == FewShotCollected(call, parse, replies, ExampleCount(sampleCount), i)
    {
      var k := ExampleCount(sampleCount);
      var data := Parsed(parse, CallLlm(call, replies(i, k)));
      candidates := candidates + FewShotAttempt(data);
    }
  }

  // ---------------------------------------------------------------------
  // generate_candidates
  // ---------------------------------------------------------------------

  datatype Generator = MetaPrompting | ChainOfThought | FewShot

  /** The dispatch: "cot" and "few_shot" have their own generators, every
      other name falls back to meta-prompting. */
  function Dispatch(methodName: string): (g: Generator)
    ensures g == ChainOfThought <==> methodName == "cot"
    ensures g == FewShot <==> methodName == "few_shot"
    ensures g == MetaPrompting <==> methodName != "cot" && methodName != "few_shot"
  {
    if methodName == "meta_prompting" then MetaPrompting
    else if methodName == "cot" then ChainOfThought
    else if methodName == "few_shot" then FewShot
    else MetaPrompting
  }

  /** The pairs `generate_candidates` returns. `reply` answers the single
      call of the meta and chain-of-thought generators, `replies` the
      attempts of the few-shot generator. */
  function Generated(call: LlmCall, parse: string -> Option<Json>, methodName: string, num: int, sampleCount: nat,
                     reply: Result<string, string>, replies: (nat, nat) -> Result<string, string>)
    : seq<(Json, Json)>
  {
    match Dispatch(methodName)
    case MetaPrompting => MetaCandidates(Parsed(parse, CallLlm(call, reply)), num)
    case ChainOfThought => CotCandidates(Parsed(parse, CallLlm(call, reply)), num)
    case FewShot =>
      if sampleCount == 0 then []
      else FewShotCollected(call, parse, replies, ExampleCount(sampleCount), if num > 0 then num else 0)
  }

  method GenerateCandidates(call: LlmCall, parse: string -> Option<Json>, methodName: string, num: int,
                            sampleCount: nat, reply: Result<string, string>,
                            replies: (nat, nat) -> Result<string, string>)
    returns (r: seq<(Json, Json)>)
    ensures r == Generated(call, parse, methodName, num, sampleCount, reply, replies)
  {
    match Dispatch(methodName)
    case MetaPrompting =>
      r := ExtractMetaCandidates(Parsed(parse, CallLlm(call, reply)), num);
    case ChainOfThought =>
      r := CotCandidates(Parsed(parse, CallLlm(call, reply)), num);
    case FewShot =>
      r := FewShotCandidates(call, parse, num, sampleCount, replies);
  }

  /** Every generator returns at most `num_candidates` pairs. A negative
      count makes the few-shot generator try nothing, while the slice of
      the other two then drops that many elements from the end. */
  lemma GeneratedBound(call: LlmCall, parse: string -> Option<Json>, methodName: string, num: int, sampleCount: nat,
                       reply: Result<string, string>, replies: (nat, nat) -> Result<string, string>)
    ensures 0 <= num ==> |Generated(call, parse, methodName, num, sampleCount, reply, replies)| <= num
    ensures num <= 0 && Dispatch(methodName) == FewShot ==> Generated(call, parse, methodName, num, sampleCount, reply, replies) == []
  {
    if Dispatch(methodName) == FewShot && sampleCount > 0 {
      FewShotCollectedBound(call, parse, replies, ExampleCount(sampleCount), if num > 0 then num else 0);
    }
  }

  /** With a negative count the meta generator keeps all but the last
      elements: `[:-1]` of three well-formed candidates gives two. */
  lemma NegativeCountDropsFromTheEnd(c: Json)
    requires CandidatePair(c).Some?
    ensures |MetaCandidates(Some(JArr([c, c, c])), -1)| == 2
  {
    assert SliceTo([c, c, c], -1) == [c, c];
  }

  /** As written, every call passes `response_format`, which `call_llm`
      does not accept: each call raises, and every generator returns no
      candidates whatever the model would have answered. */
  lemma {:induction false} JsonObjectCallGeneratesNothing(parse: string -> Option<Json>, methodName: string, num: int,
                                                          sampleCount: nat, reply: Result<string, string>,
                                                          replies: (nat, nat) -> Result<string, string>)
    ensures Generated(JsonObjectCall, parse, methodName, num, sampleCount, reply, replies) == []
  {
    if sampleCount > 0 {
      FailingAttemptsCollectNothing(parse, replies, ExampleCount(sampleCount), if num > 0 then num else 0);
    }
  }

  lemma {:induction false} FailingAttemptsCollectNothing(parse: string -> Option<Json>,
                                                         replies: (nat, nat) -> Result<string, string>, k: nat, attempts: nat)
    ensures FewShotCollected(JsonObjectCall, parse, replies, k, attempts) == []
  {
    if attempts > 0 {
      FailingAttemptsCollectNothing(parse, replies, k, attempts - 1);
    }
  }

  /** Without the undeclared keyword the reply reaches the extraction: a
      meta-prompting reply that parses to a list of well-formed candidate
      objects yields the pairs of its first `num_candidates` elements, in
      order. */
  lemma PlainCallKeepsWellFormedCandidates(parse: string -> Option<Json>, text: string, items: seq<Json>, num: nat,
                                           sampleCount: nat, replies: (nat, nat) -> Result<string, string>)
    requires parse(text) == Some(JArr(items))
    requires forall i :: 0 <= i < |items| ==> CandidatePair(items[i]).Some?
    ensures var r := Generated(PlainCall, parse, "meta_prompting", num, sampleCount, Ok(text), replies);
            && |r| == (if num < |items| then num else |items|)
            && forall k :: 0 <= k < |r| ==> CandidatePair(items[k]) == Some(r[k])
  {
    var sliced := SliceTo(items, num);
    assert forall k :: 0 <= k < |sliced| ==> sliced[k] == items[k];
  }
}
