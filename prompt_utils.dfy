/** Placeholder handling for prompt templates (backend/services/prompt_utils.py):
    finding the `{name}` variables of a template, checking a
    variable-to-column mapping, and literal substitution. */
module PromptUtils {
  import opened Wrappers

  // ---------------------------------------------------------------------
  // The placeholder pattern  \{([a-zA-Z_][a-zA-Z0-9_]*)\}
  // ---------------------------------------------------------------------

  predicate IsIdentStart(c: char) {
    ('a' <= c <= 'z') || ('A' <= c <= 'Z') || c == '_'
  }

  predicate IsIdentChar(c: char) {
    IsIdentStart(c) || ('0' <= c <= '9')
  }

  /** `name` matches `[a-zA-Z_][a-zA-Z0-9_]*` as a whole. */
  predicate IsIdentifier(name: string) {
    |name| > 0 && IsIdentStart(name[0]) && forall k :: 1 <= k < |name| ==> IsIdentChar(name[k])
  }

  /** The literal text `{name}`. */
  function Placeholder(name: string): (p: string)
    ensures |p| == |name| + 2
  {
    "{" + name + "}"
  }

  /** `pat` is written in `s` starting at position `p`. */
  predicate OccursAt(s: string, pat: string, p: nat) {
    p + |pat| <= |s| && s[p..p + |pat|] == pat
  }

  /** The text `{name}` stands in `s` at position `p`. */
  predicate PlaceholderAt(s: string, p: nat, name: string) {
    OccursAt(s, Placeholder(name), p)
  }

  /** The length of the run of identifier characters that starts at `j`. */
  function IdentRun(s: string, j: nat): (n: nat)
    requires j <= |s|
    ensures j + n <= |s|
    ensures forall k :: j <= k < j + n ==> IsIdentChar(s[k])
    ensures j + n < |s| ==> !IsIdentChar(s[j + n])
    decreases |s| - j
  {
    if j < |s| && IsIdentChar(s[j]) then 1 + IdentRun(s, j + 1) else 0
  }

  /** The name the pattern captures when a match starts at position `i`.
      Identifier characters never include `}`, so the greedy run followed
      by `}` is the only way a match can start there. */
  function MatchAt(s: string, i: nat): Option<string>
    requires i < |s|
  {
    if s[i] != '{' || i + 1 >= |s| || !IsIdentStart(s[i + 1]) then None
    else
      var n := IdentRun(s, i + 1);
      if i + 1 + n < |s| && s[i + 1 + n] == '}' then Some(s[i + 1..i + 1 + n]) else None
  }

  /** `{name}` at `p`, spelled out character by character. */
  lemma PlaceholderAtParts(s: string, p: nat, name: string)
    ensures PlaceholderAt(s, p, name) <==>
              && p + |name| + 2 <= |s|
              && s[p] == '{'
              && s[p + 1..p + 1 + |name|] == name
              && s[p + 1 + |name|] == '}'
  {
    if p + |name| + 2 <= |s| {
      var w := s[p..p + |name| + 2];
      var inner, written := w[1..|name| + 1], s[p + 1..p + 1 + |name|];
      forall k | 0 <= k < |name|
        ensures inner[k] == written[k]
      {
        assert inner[k] == w[k + 1] == s[p + 1 + k];
      }
      assert inner == written;
      if w == Placeholder(name) {
        assert w[1..|name| + 1] == name;
      }
      if s[p] == '{' && s[p + 1..p + 1 + |name|] == name && s[p + 1 + |name|] == '}' {
        assert w == [w[0]] + w[1..|name| + 1] + [w[|name| + 1]];
      }
    }
  }

  /** A match at `i` captures `name` exactly when `name` is an identifier
      and `{name}` is written at `i`. */
  lemma MatchAtIff(s: string, i: nat)
    requires i < |s|
    ensures forall name :: MatchAt(s, i) == Some(name) <==> IsIdentifier(name) && PlaceholderAt(s, i, name)
  {
    forall name
      ensures MatchAt(s, i) == Some(name) <==> IsIdentifier(name) && PlaceholderAt(s, i, name)
    {
      PlaceholderAtParts(s, i, name);
      if MatchAt(s, i) == Some(name) {
        var n := IdentRun(s, i + 1);
        assert name == s[i + 1..i + 1 + n];
      }
      if IsIdentifier(name) && PlaceholderAt(s, i, name) {
        forall k | i + 1 <= k < i + 1 + |name|
          ensures IsIdentChar(s[k])
        {
          assert s[k] == s[i + 1..i + 1 + |name|][k - i - 1];
        }
        IdentRunStopsAtBrace(s, i + 1, |name|);
      }
    }
  }

  lemma {:induction false} IdentRunStopsAtBrace(s: string, j: nat, m: nat)
    requires j + m < |s|
    requires forall k :: j <= k < j + m ==> IsIdentChar(s[k])
    requires s[j + m] == '}'
    ensures IdentRun(s, j) == m
    decreases m
  {
    if m > 0 {
      IdentRunStopsAtBrace(s, j + 1, m - 1);
    }
  }

  /** Matches never overlap: inside a matched `{name}` no other match can
      start. Scanning every position therefore finds the same matches, in
      the same order, as `re.finditer`. */
  lemma MatchesDoNotOverlap(s: string, i: nat, k: nat)
    requires i < k < |s|
    requires MatchAt(s, i).Some?
    requires k < i + |MatchAt(s, i).value| + 2
    ensures MatchAt(s, k).None?
  {
    var n := IdentRun(s, i + 1);
    if k < i + 1 + n {
      assert IsIdentChar(s[k]);
    }
  }

  // ---------------------------------------------------------------------
  // extract_variables
  // ---------------------------------------------------------------------

  /** Each name of `names` is written in `content` before any occurrence
      of a later name: the names come in order of first appearance. */
  ghost predicate InFirstAppearanceOrder(content: string, names: seq<string>) {
    forall a, b, q: nat :: 0 <= a < b < |names| && PlaceholderAt(content, q, names[b]) ==>
      WrittenBefore(content, names[a], q)
  }

  /** `{name}` is written somewhere in `content` before position `q`. */
  ghost predicate WrittenBefore(content: string, name: string, q: nat) {
    exists p: nat :: p < q && PlaceholderAt(content, p, name)
  }

  /** The state of the scan after the first `i` positions: `names` are the
      placeholder names met so far, each first written at `firstAt`, in
      increasing order of those positions. */
  ghost predicate Scanned(content: string, i: nat, names: seq<string>, firstAt: seq<nat>) {
    && i <= |content|
    && |firstAt| == |names|
    && (forall a :: 0 <= a < |names| ==> IsIdentifier(names[a]))
    && (forall a :: 0 <= a < |names| ==> firstAt[a] < i && PlaceholderAt(content, firstAt[a], names[a]))
    && (forall a, p: nat :: 0 <= a < |names| && p < firstAt[a] ==> !PlaceholderAt(content, p, names[a]))
    && (forall a, b :: 0 <= a < b < |names| ==> firstAt[a] < firstAt[b])
    && (forall p: nat, name :: p < i && IsIdentifier(name) && PlaceholderAt(content, p, name) ==> name in names)
  }

  lemma ScanStep(content: string, i: nat, names: seq<string>, firstAt: seq<nat>)
    requires i < |content| && Scanned(content, i, names, firstAt)
    ensures MatchAt(content, i).Some? && MatchAt(content, i).value !in names ==>
              Scanned(content, i + 1, names + [MatchAt(content, i).value], firstAt + [i])
    ensures !(MatchAt(content, i).Some? && MatchAt(content, i).value !in names) ==>
              Scanned(content, i + 1, names, firstAt)
  {
    MatchAtIff(content, i);
  }

  lemma ScanComplete(content: string, names: seq<string>, firstAt: seq<nat>)
    requires Scanned(content, |content|, names, firstAt)
    ensures forall a, b :: 0 <= a < b < |names| ==> names[a] != names[b]
    ensures forall name :: name in names <==> IsIdentifier(name) && exists p: nat :: PlaceholderAt(content, p, name)
    ensures InFirstAppearanceOrder(content, names)
  {
    forall a, b | 0 <= a < b < |names|
      ensures names[a] != names[b]
    {
      assert firstAt[a] < firstAt[b];
      assert PlaceholderAt(content, firstAt[a], names[a]);
      assert !PlaceholderAt(content, firstAt[a], names[b]);
    }
    forall name | name in names
      ensures IsIdentifier(name) && exists p: nat :: PlaceholderAt(content, p, name)
    {
      var a :| 0 <= a < |names| && names[a] == name;
      assert PlaceholderAt(content, firstAt[a], name);
    }
    forall name | IsIdentifier(name) && exists p: nat :: PlaceholderAt(content, p, name)
      ensures name in names
    {
      var p: nat :| PlaceholderAt(content, p, name);
      assert p < |content|;
    }
    assert InFirstAppearanceOrder(content, names) by {
      forall a, b, q: nat | 0 <= a < b < |names| && PlaceholderAt(content, q, names[b])
        ensures WrittenBefore(content, names[a], q)
      {
        assert firstAt[a] < firstAt[b] <= q;
        assert PlaceholderAt(content, firstAt[a], names[a]);
      }
    }
  }

  /** `extract_variables`: the unique variable names of `content`, in
      order of first appearance. */
  method ExtractVariables(content: string) returns (variables: seq<string>)
    ensures |content| == 0 ==> variables == []
    ensures forall a, b :: 0 <= a < b < |variables| ==> variables[a] != variables[b]
    ensures forall name :: name in variables <==> IsIdentifier(name) && exists p: nat :: PlaceholderAt(content, p, name)
    ensures InFirstAppearanceOrder(content, variables)
  {
    if |content| == 0 {
      return [];
    }
    var seen: set<string> := {};
    variables := [];
    ghost var firstAt: seq<nat> := [];
    var i := 0;
    while i < |content|
      invariant Scanned(content, i, variables, firstAt)
      invariant seen == set x | x in variables
    {
      ScanStep(content, i, variables, firstAt);
      var m := MatchAt(content, i);
      if m.Some? && m.value !in seen {
        seen := seen + {m.value};
        variables := variables + [m.value];
        firstAt := firstAt + [i];
      }
      i := i + 1;
    }
    ScanComplete(content, variables, firstAt);
  }

  // ---------------------------------------------------------------------
  // validate_variable_mapping
  // ---------------------------------------------------------------------

  /** The outcome `(is_valid, error_message)`, with the message's subject
      kept as a set instead of a comma-joined string. */
  datatype MappingCheck =
    | Valid
    | UnmappedVariables(names: set<string>)
    | InvalidColumns(columns: set<string>)

  function ValidateVariableMapping(promptVariables: seq<string>, datasetColumns: seq<string>,
                                   mapping: map<string, string>): (r: MappingCheck)
    ensures |promptVariables| == 0 ==> r == Valid
    ensures r.UnmappedVariables? <==> exists v :: v in promptVariables && v !in mapping
    ensures r.UnmappedVariables? ==> forall v :: v in r.names <==> v in promptVariables && v !in mapping
    ensures r.InvalidColumns? <==>
              && |promptVariables| > 0
              && (forall v :: v in promptVariables ==> v in mapping)
              && exists k :: k in mapping && mapping[k] !in datasetColumns
    ensures r.InvalidColumns? ==> forall c :: c in r.columns <==> (exists k :: k in mapping && mapping[k] == c) && c !in datasetColumns
    ensures r == Valid <==>
              || |promptVariables| == 0
              || ((forall v :: v in promptVariables ==> v in mapping) &&
                  forall k :: k in mapping ==> mapping[k] in datasetColumns)
  {
    if |promptVariables| == 0 then Valid
    else
      var unmapped := (set v | v in promptVariables) - mapping.Keys;
      if unmapped != {} then UnmappedVariables(unmapped)
      else
        assert forall v :: v in promptVariables ==> v in mapping by {
          forall v | v in promptVariables ensures v in mapping {
            assert v in (set v | v in promptVariables);
            assert v !in unmapped;
          }
        }
        var invalid := mapping.Values - (set c | c in datasetColumns);
        if invalid != {} then
          assert forall c :: c in invalid ==> exists k :: k in mapping && mapping[k] == c;
          InvalidColumns(invalid)
        else
          assert forall k :: k in mapping ==> mapping[k] in datasetColumns by {
            forall k | k in mapping ensures mapping[k] in datasetColumns {
              assert mapping[k] in mapping.Values;
              assert mapping[k] !in invalid;
            }
          }
          Valid
  }

  // ---------------------------------------------------------------------
  // substitute_variables
  // ---------------------------------------------------------------------

  /** `pat` occurs in `s`. */
  predicate Contains(s: string, pat: string) {
    exists p: nat :: p <= |s| && OccursAt(s, pat, p)
  }

  /** Python's `s.replace(pat, rep)`: every non-overlapping occurrence of
      `pat`, found left to right, is replaced by `rep`. */
  function ReplaceAll(s: string, pat: string, rep: string): string
    requires |pat| > 0
    decreases |s|
  {
    if |s| < |pat| then s
    else if OccursAt(s, pat, 0) then rep + ReplaceAll(s[|pat|..], pat, rep)
    else [s[0]] + ReplaceAll(s[1..], pat, rep)
  }

  lemma OccursAtTail(s: string, pat: string, q: nat)
    requires |s| > 0
    ensures OccursAt(s[1..], pat, q) <==> OccursAt(s, pat, q + 1)
  {
    if q + 1 + |pat| <= |s| {
      var shifted, direct := s[1..][q..q + |pat|], s[q + 1..q + 1 + |pat|];
      forall k | 0 <= k < |pat|
        ensures shifted[k] == direct[k]
      {
      }
      assert shifted == direct;
    }
  }

  /** Without an occurrence of `pat`, replacing changes nothing. */
  lemma {:induction false} ReplaceAbsent(s: string, pat: string, rep: string)
    requires |pat| > 0 && !Contains(s, pat)
    ensures ReplaceAll(s, pat, rep) == s
    decreases |s|
  {
    if |s| >= |pat| {
      assert !OccursAt(s, pat, 0);
      assert !Contains(s[1..], pat) by {
        forall p: nat | p <= |s[1..]|
          ensures !OccursAt(s[1..], pat, p)
        {
          OccursAtTail(s, pat, p);
        }
      }
      ReplaceAbsent(s[1..], pat, rep);
    }
  }

  /** Where `pat` does not start the text, replacing keeps the first
      character and continues with the rest. */
  lemma ReplaceSkipsFirstChar(s: string, pat: string, rep: string)
    requires |pat| > 0 && |s| >= |pat| && !OccursAt(s, pat, 0)
    ensures ReplaceAll(s, pat, rep) == [s[0]] + ReplaceAll(s[1..], pat, rep)
  {
  }

  /** Regrouping a concatenation. */
  lemma Regroup(whole: string, rest: string, c: string, before: string, rep: string, after: string, prefix: string)
    requires whole == c + rest && rest == before + rep + after && c + before == prefix
    ensures whole == prefix + rep + after
  {
    assert c + (before + rep + after) == (c + before) + rep + after;
  }

  /** `pat` does not occur in `s` before position `p`. */
  predicate NoneBefore(s: string, pat: string, p: nat) {
    forall q: nat :: q < p ==> !OccursAt(s, pat, q)
  }

  /** An occurrence in a suffix is an occurrence in the whole text. */
  lemma OccursAtSuffix(s: string, pat: string, i: nat, q: nat)
    requires i <= |s|
    ensures OccursAt(s[i..], pat, q) <==> OccursAt(s, pat, i + q)
  {
    if i + q + |pat| <= |s| {
      var shifted, direct := s[i..][q..q + |pat|], s[i + q..i + q + |pat|];
      forall k | 0 <= k < |pat|
        ensures shifted[k] == direct[k]
      {
      }
      assert shifted == direct;
    }
  }

  /** Where no occurrence starts at `i`, replacing from `i` keeps `s[i]`. */
  lemma ReplaceStep(s: string, pat: string, rep: string, i: nat)
    requires |pat| > 0 && i + |pat| <= |s| && !OccursAt(s, pat, i)
    ensures ReplaceAll(s[i..], pat, rep) == [s[i]] + ReplaceAll(s[i + 1..], pat, rep)
  {
    OccursAtSuffix(s, pat, i, 0);
    ReplaceSkipsFirstChar(s[i..], pat, rep);
    assert s[i..][1..] == s[i + 1..];
  }

  /** Replacing from any position up to the first occurrence `p` keeps the
      text up to `p`, replaces the occurrence, and resumes after it. */
  lemma {:induction false} ReplaceUpToFirstOccurrence(s: string, pat: string, rep: string, i: nat, p: nat)
    requires |pat| > 0 && i <= p
    requires OccursAt(s, pat, p) && NoneBefore(s, pat, p)
    ensures ReplaceAll(s[i..], pat, rep) == s[i..p] + rep + ReplaceAll(s[p + |pat|..], pat, rep)
    decreases p - i
  {
    if i < p {
      assert !OccursAt(s, pat, i);
      ReplaceStep(s, pat, rep, i);
      ReplaceUpToFirstOccurrence(s, pat, rep, i + 1, p);
      assert [s[i]] + s[i + 1..p] == s[i..p];
      Regroup(ReplaceAll(s[i..], pat, rep), ReplaceAll(s[i + 1..], pat, rep), [s[i]], s[i + 1..p], rep,
              ReplaceAll(s[p + |pat|..], pat, rep), s[i..p]);
    } else {
      OccursAtSuffix(s, pat, p, 0);
      ReplaceAtStart(s[p..], pat, rep);
      assert s[p..][|pat|..] == s[p + |pat|..];
      assert s[p..p] + rep == rep;
    }
  }

  /** The first occurrence of `pat`, at `p`, is replaced by `rep`, the text
      before it is kept, and replacing resumes right after it. */
  lemma ReplaceAtFirstOccurrence(s: string, pat: string, rep: string, p: nat)
    requires |pat| > 0
    requires OccursAt(s, pat, p) && NoneBefore(s, pat, p)
    ensures ReplaceAll(s, pat, rep) == s[..p] + rep + ReplaceAll(s[p + |pat|..], pat, rep)
  {
    ReplaceUpToFirstOccurrence(s, pat, rep, 0, p);
    assert s[0..] == s && s[0..p] == s[..p];
  }

  /** Where `pat` starts the text, it is replaced and replacing continues
      after it. */
  lemma ReplaceAtStart(s: string, pat: string, rep: string)
    requires |pat| > 0 && OccursAt(s, pat, 0)
    ensures ReplaceAll(s, pat, rep) == rep + ReplaceAll(s[|pat|..], pat, rep)
  {
  }

  /** The result of substituting the `(key, value)` pairs one key at a
      time, in the dict's order: a fold over the pairs. */
  function Substituted(template: string, variables: seq<(string, string)>): string
    decreases |variables|
  {
    if variables == [] then template
    else
      var last := variables[|variables| - 1];
      ReplaceAll(Substituted(template, variables[..|variables| - 1]), Placeholder(last.0), last.1)
  }

  /** `substitute_variables`: a loop that reassigns `result` once per key,
      skipping keys whose placeholder is absent. */
  method SubstituteVariables(template: string, variables: seq<(string, string)>) returns (result: string)
    ensures result == Substituted(template, variables)
  {
    result := template;
    for i := 0 to |variables|
      invariant result == Substituted(template, variables[..i])
    {
      var (key, value) := variables[i];
      assert variables[..i + 1][..i] == variables[..i];
      var placeholder := Placeholder(key);
      if Contains(result, placeholder) {
        result := ReplaceAll(result, placeholder, value);
      } else {
        ReplaceAbsent(result, placeholder, value);
      }
    }
    assert variables[..|variables|] == variables;
  }

  /** A template in which no key's placeholder occurs comes back unchanged,
      whatever the values. */
  lemma {:induction false} SubstituteWithoutPlaceholders(template: string, variables: seq<(string, string)>)
    requires forall i :: 0 <= i < |variables| ==> !Contains(template, Placeholder(variables[i].0))
    ensures Substituted(template, variables) == template
    decreases |variables|
  {
    if variables != [] {
      var init := variables[..|variables| - 1];
      assert forall i :: 0 <= i < |init| ==> init[i] == variables[i];
      SubstituteWithoutPlaceholders(template, init);
      var last := variables[|variables| - 1];
      ReplaceAbsent(template, Placeholder(last.0), last.1);
    }
  }

  /** Where `pat` opens with a brace, a text without braces holds no
      occurrence of it. */
  lemma NoBraceNoOccurrence(s: string, pat: string, p: nat)
    requires |pat| > 0 && pat[0] == '{' && '{' !in s
    ensures !OccursAt(s, pat, p)
  {
    if p + |pat| <= |s| {
      assert s[p..p + |pat|][0] == s[p] != pat[0];
    }
  }

  /** Replacing a placeholder that stands once, after a brace-free prefix
      and before a text that does not hold it, puts the value in its place. */
  lemma ReplaceSingle(a: string, pat: string, b: string, rep: string)
    requires |pat| > 0 && pat[0] == '{' && '{' !in a && !Contains(b, pat)
    ensures ReplaceAll(a + pat + b, pat, rep) == a + rep + b
  {
    var s := a + pat + b;
    assert OccursAt(s, pat, |a|) by {
      assert s[|a|..|a| + |pat|] == pat;
    }
    forall q: nat | q < |a|
      ensures !OccursAt(s, pat, q)
    {
      assert s[q] == a[q] != pat[0];
      assert s[q..q + |pat|][0] == s[q];
    }
    ReplaceAtFirstOccurrence(s, pat, rep, |a|);
    assert s[..|a|] == a && s[|a| + |pat|..] == b;
    ReplaceAbsent(b, pat, rep);
  }

  /** The placeholder of one key does not occur in a text whose only
      brace-opened placeholder is that of another key. */
  lemma OtherKeyAbsent(m: string, k1: string, k2: string, z: string)
    requires k1 != k2
    requires '{' !in m && '{' !in z && '{' !in k1 && '}' !in k1 && '{' !in k2 && '}' !in k2
    ensures !Contains(m + Placeholder(k2) + z, Placeholder(k1))
  {
    var s, p1, p2 := m + Placeholder(k2) + z, Placeholder(k1), Placeholder(k2);
    forall p: nat | p <= |s|
      ensures !OccursAt(s, p1, p)
    {
      if p + |p1| <= |s| {
        var w := s[p..p + |p1|];
        if p < |m| {
          assert w[0] == m[p] != p1[0];
        } else if |m| < p < |m| + |p2| - 1 {
          assert w[0] == p2[p - |m|] == k2[p - |m| - 1] != p1[0];
        } else if p == |m| + |p2| - 1 {
          assert w[0] == p2[p - |m|] == '}' != p1[0];
        } else if p > |m| {
          assert w[0] == z[p - |m| - |p2|] != p1[0];
        } else if |k1| < |k2| {
          assert w[1 + |k1|] == p2[1 + |k1|] == k2[|k1|] != p1[1 + |k1|];
        } else if |k1| > |k2| {
          assert w[1 + |k2|] == p2[1 + |k2|] == '}' != k1[|k2|] == p1[1 + |k2|];
        } else {
          var i :| 0 <= i < |k1| && k1[i] != k2[i];
          assert w[1 + i] == p2[1 + i] == k2[i] != p1[1 + i];
        }
      }
    }
  }

  /** Substituting two keys is replacing the first key's placeholder,
      then the second's. */
  lemma SubstitutedTwice(template: string, k1: string, v1: string, k2: string, v2: string)
    ensures Substituted(template, [(k1, v1), (k2, v2)])
         == ReplaceAll(ReplaceAll(template, Placeholder(k1), v1), Placeholder(k2), v2)
  {
    var vars := [(k1, v1), (k2, v2)];
    var first := vars[..1];
    assert first == [(k1, v1)] && first[..0] == [];
    assert Substituted(template, first) == ReplaceAll(template, Placeholder(k1), v1);
    assert Substituted(template, vars) == ReplaceAll(Substituted(template, first), Placeholder(k2), v2);
  }

  /** Two keys, each standing once in the template between brace-free
      text, are both replaced by their values, whatever the second value
      holds. */
  lemma SubstituteTwoKeys(a: string, k1: string, v1: string, m: string, k2: string, v2: string, z: string)
    requires k1 != k2
    requires '{' !in a && '{' !in m && '{' !in z && '{' !in v1
    requires '{' !in k1 && '}' !in k1 && '{' !in k2 && '}' !in k2
    ensures Substituted(a + Placeholder(k1) + m + Placeholder(k2) + z, [(k1, v1), (k2, v2)])
         == a + v1 + m + v2 + z
  {
    var tail := m + Placeholder(k2) + z;
    assert a + Placeholder(k1) + m + Placeholder(k2) + z == a + Placeholder(k1) + tail;
    SubstitutedTwice(a + Placeholder(k1) + tail, k1, v1, k2, v2);
    OtherKeyAbsent(m, k1, k2, z);
    ReplaceSingle(a, Placeholder(k1), tail, v1);
    forall p: nat | p <= |z|
      ensures !OccursAt(z, Placeholder(k2), p)
    {
      NoBraceNoOccurrence(z, Placeholder(k2), p);
    }
    var head := a + v1 + m;
    assert a + v1 + tail == head + Placeholder(k2) + z;
    ReplaceSingle(head, Placeholder(k2), z, v2);
  }

  /** The greeting template, cut at its two placeholders. */
  lemma GreetingTemplateParts()
    ensures "Hello " + Placeholder("name") + ", you are from " + Placeholder("city") + "."
         == "Hello {name}, you are from {city}."
  {
  }

  /** The template "Hello {name}, you are from {city}." with a brace-free
      name and any city puts both values in place: with "Ana" and "Lima"
      it reads "Hello Ana, you are from Lima.". */
  lemma GreetingExample(name: string, city: string)
    requires '{' !in name
    ensures Substituted("Hello {name}, you are from {city}.", [("name", name), ("city", city)])
         == "Hello " + name + ", you are from " + city + "."
  {
    GreetingTemplateParts();
    SubstituteTwoKeys("Hello ", "name", name, ", you are from ", "city", city, ".");
  }
}
