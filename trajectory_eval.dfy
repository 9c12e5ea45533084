/**
 * Trajectory scoring of the RAG agent's evaluation suite: the validated
 * EvaluationResult record, the three scorers that compare the tool calls an
 * agent made with the tool calls a dataset row expects (exact ordered match,
 * set precision, set coverage), and the keyword heuristic that turns the
 * agent's response text into a synthetic tool call.
 *
 * Tool-call lists arrive already decoded from JSON. Scores are exact reals
 * built from set cardinalities, so the 0.7 and 0.9 thresholds are exact.
 */
module TrajectoryEval {
  import opened Wrappers

  // ---------------------------------------------------------------------
  // Data model
  // ---------------------------------------------------------------------

  /** One decoded element of a tool-call list. Only a JSON object has `get`;
      every other JSON value (string, number, list, null) is a NonMapping. */
  datatype Entry = Mapping(fields: map<string, string>) | NonMapping

  /** The exceptions the scoring code can raise. */
  datatype Error =
    | AttributeError  // `get` called on an entry that is not a mapping
    | ValueError      // an EvaluationResult built with a score outside [0, 1]

  /** The facts each explanation reports, before they are rendered as text. */
  datatype Explanation =
    | LengthMismatch(expectedCount: nat, actualCount: nat)
    | SequenceCompared(expectedSequence: seq<string>, actualSequence: seq<string>)
    | NoToolsExpected(actualCount: nat)
    | NoToolsUsed
    | PrecisionRatio(matched: nat, used: nat, expectedSet: set<string>, usedSet: set<string>)
    | NoToolsExpectedGot(actualSet: set<string>)
    | CoverageRatio(matched: nat, expectedCount: nat, expectedSet: set<string>, actualSet: set<string>)

  datatype EvaluationResult = EvaluationResult(score: real, tag: string, explanation: Explanation)

  /** An EvaluationResult that passed the validation of its constructor. */
  type Evaluation = r: EvaluationResult | 0.0 <= r.score <= 1.0
    witness EvaluationResult(0.0, "", NoToolsUsed)

  /** Construction of an EvaluationResult: it fails with a ValueError
      exactly when the score lies outside [0, 1]. */
  function NewEvaluationResult(score: real, tag: string, explanation: Explanation): (r: Result<Evaluation, Error>)
    ensures r.Ok? <==> 0.0 <= score <= 1.0
    ensures r.Ok? ==> r.value.score == score && r.value.tag == tag && r.value.explanation == explanation
    ensures r.Err? ==> r.error == ValueError
  {
    if 0.0 <= score <= 1.0 then Ok(EvaluationResult(score, tag, explanation)) else Err(ValueError)
  }

  // ---------------------------------------------------------------------
  // Tool names
  // ---------------------------------------------------------------------

  const ToolNameKey: string := "tool_name"
  const ToolInputKey: string := "tool_input"

  /** `entry.get("tool_name", "")`: a missing name reads as the empty string. */
  function ToolName(e: Entry): string
    requires e.Mapping?
  {
    if ToolNameKey in e.fields then e.fields[ToolNameKey] else ""
  }

  predicate AllMappings(s: seq<Entry>) {
    forall i :: 0 <= i < |s| ==> s[i].Mapping?
  }

  /** The ordered names `[e.get("tool_name", "") for e in s]`; None when an
      entry is not a mapping (the comprehension raises). */
  function Names(s: seq<Entry>): (r: Option<seq<string>>)
    ensures r.Some? <==> AllMappings(s)
    ensures r.Some? ==> |r.value| == |s| && forall i :: 0 <= i < |s| ==> r.value[i] == ToolName(s[i])
  {
    if s == [] then Some([])
    else if s[0].NonMapping? then None
    else
      match Names(s[1..])
      case None => None
      case Some(rest) => Some([ToolName(s[0])] + rest)
  }

  /** The set of names of the mapping entries of `s`; for a list of mappings
      this is `set(e.get("tool_name", "") for e in s)`. */
  function MappedNames(s: seq<Entry>): set<string> {
    set e | e in s && e.Mapping? :: ToolName(e)
  }

  function Elems<T>(s: seq<T>): set<T> {
    set x | x in s
  }

  // ---------------------------------------------------------------------
  // The three scorers
  // ---------------------------------------------------------------------

  /** Exact ordered match of the tool-name sequences. */
  function ExactMatch(actual: seq<Entry>, expected: seq<Entry>): (r: Result<Evaluation, Error>)
    // validation never rejects the score it builds
    ensures r.Err? ==> r.error == AttributeError
    ensures |actual| != |expected| ==>
      r == Ok(EvaluationResult(0.0, "no_exact_match", LengthMismatch(|expected|, |actual|)))
    ensures |actual| == |expected| ==> (r.Ok? <==> AllMappings(actual) && AllMappings(expected))
    ensures r.Ok? ==> r.value.score == 0.0 || r.value.score == 1.0
    ensures r.Ok? ==> (r.value.tag == "exact_match" <==> r.value.score == 1.0)
    ensures r.Ok? ==> (r.value.tag == "no_exact_match" <==> r.value.score == 0.0)
    ensures r.Ok? ==>
      (r.value.score == 1.0 <==>
        |actual| == |expected| && forall i :: 0 <= i < |actual| ==> ToolName(actual[i]) == ToolName(expected[i]))
  {
    if |actual| != |expected| then
      NewEvaluationResult(0.0, "no_exact_match", LengthMismatch(|expected|, |actual|))
    else
      match (Names(actual), Names(expected))
      case (Some(actualNames), Some(expectedNames)) =>
        var score := if actualNames == expectedNames then 1.0 else 0.0;
        var tag := if score == 1.0 then "exact_match" else "no_exact_match";
        NewEvaluationResult(score, tag, SequenceCompared(expectedNames, actualNames))
      case _ => Err(AttributeError)
  }

  /** Precision: the fraction of the distinct tools used that were expected. */
  function Precision(actual: seq<Entry>, expected: seq<Entry>): (r: Result<Evaluation, Error>)
    ensures r.Err? ==> r.error == AttributeError
    ensures expected == [] && actual == [] ==>
      r == Ok(EvaluationResult(1.0, "perfect", NoToolsExpected(0)))
    ensures expected == [] && actual != [] ==>
      r == Ok(EvaluationResult(0.0, "unexpected_tools", NoToolsExpected(|actual|)))
    ensures expected != [] ==> (r.Ok? <==> AllMappings(actual) && AllMappings(expected))
    ensures expected != [] && actual == [] && r.Ok? ==>
      r.value.score == 0.0 && r.value.tag == "no_tools_used"
    ensures expected != [] && actual != [] && r.Ok? ==>
      |MappedNames(actual)| > 0 &&
      r.value.score == |MappedNames(actual) * MappedNames(expected)| as real / |MappedNames(actual)| as real
    ensures expected != [] && actual != [] && r.Ok? ==>
      && (r.value.tag == "high_precision" <==> r.value.score >= 0.9)
      && (r.value.tag == "medium_precision" <==> 0.7 <= r.value.score < 0.9)
      && (r.value.tag == "low_precision" <==> r.value.score < 0.7)
  {
    if expected == [] then
      var score := if actual == [] then 1.0 else 0.0;
      var tag := if score == 1.0 then "perfect" else "unexpected_tools";
      NewEvaluationResult(score, tag, NoToolsExpected(|actual|))
    else if !AllMappings(actual) || !AllMappings(expected) then
      Err(AttributeError)
    else
      var used := MappedNames(actual);
      var wanted := MappedNames(expected);
      NonEmptyNames(actual);
      if used == {} then
        NewEvaluationResult(0.0, "no_tools_used", NoToolsUsed)
      else
        var matched := used * wanted;
        IntersectionBound(used, wanted);
        RatioInUnit(|matched|, |used|);
        var score := |matched| as real / |used| as real;
        var tag :=
          if score >= 0.9 then "high_precision"
          else if score >= 0.7 then "medium_precision"
          else "low_precision";
        NewEvaluationResult(score, tag, PrecisionRatio(|matched|, |used|, wanted, used))
  }

  /** Coverage: the fraction of the distinct expected tools that were used.
      Entries that are not mappings are skipped on both sides. */
  function Coverage(actual: seq<Entry>, expected: seq<Entry>): (r: Evaluation)
    ensures MappedNames(expected) == {} ==>
      (r.score == 1.0 <==> MappedNames(actual) == {}) &&
      (r.score == 1.0 ==> r.tag == "correct_no_tools") &&
      (r.score != 1.0 ==> r.score == 0.0 && r.tag == "unexpected_tools")
    ensures MappedNames(expected) != {} ==>
      r.score == |MappedNames(actual) * MappedNames(expected)| as real / |MappedNames(expected)| as real
    ensures MappedNames(expected) != {} ==>
      && (r.tag == "perfect_match" <==> r.score == 1.0)
      && (r.tag == "good_match" <==> 0.7 <= r.score < 1.0)
      && (r.tag == "partial_match" <==> 0.0 < r.score < 0.7)
      && (r.tag == "no_match" <==> r.score == 0.0)
  {
    var used := MappedNames(actual);
    var wanted := MappedNames(expected);
    if wanted == {} then
      var score := if used == {} then 1.0 else 0.0;
      var tag := if score == 1.0 then "correct_no_tools" else "unexpected_tools";
      NewEvaluationResult(score, tag, NoToolsExpectedGot(used)).value
    else
      var matched := used * wanted;
      IntersectionBound(wanted, used);
      assert matched == wanted * used;
      RatioInUnit(|matched|, |wanted|);
      var score := |matched| as real / |wanted| as real;
      var tag :=
        if score == 1.0 then "perfect_match"
        else if score >= 0.7 then "good_match"
        else if score > 0.0 then "partial_match"
        else "no_match";
      NewEvaluationResult(score, tag, CoverageRatio(|matched|, |wanted|, wanted, used)).value
  }

  // ---------------------------------------------------------------------
  // Set facts used by the scorers
  // ---------------------------------------------------------------------

  /** A ratio of two counts, the second positive and not smaller, lies in
      [0, 1] and is 1 exactly when the counts agree. */
  lemma RatioInUnit(n: nat, d: nat)
    requires 0 < d && n <= d
    ensures 0.0 <= n as real / d as real <= 1.0
    ensures n as real / d as real == 1.0 <==> n == d
    ensures n as real / d as real == 0.0 <==> n == 0
  {
    var q := n as real / d as real;
    assert q * d as real == n as real;
  }

  lemma IntersectionBound(a: set<string>, b: set<string>)
    ensures |a * b| <= |a|
    ensures |a * b| == |a| <==> a <= b
  {
    var m := a * b;
    assert a == m + (a - b);
    assert m * (a - b) == {};
    if |m| == |a| {
      assert |a - b| == 0;
    }
  }

  lemma NonEmptyNames(s: seq<Entry>)
    requires AllMappings(s)
    ensures s != [] ==> MappedNames(s) != {}
  {
    if s != [] {
      assert s[0] in s && s[0].Mapping?;
      assert ToolName(s[0]) in MappedNames(s);
    }
  }

  lemma MappedNamesOfElems(s1: seq<Entry>, s2: seq<Entry>)
    requires Elems(s1) - {NonMapping} == Elems(s2) - {NonMapping}
    ensures MappedNames(s1) == MappedNames(s2)
  {
    forall n | n in MappedNames(s1) ensures n in MappedNames(s2) {
      var e :| e in s1 && e.Mapping? && ToolName(e) == n;
      assert e in Elems(s1) - {NonMapping};
    }
    forall n | n in MappedNames(s2) ensures n in MappedNames(s1) {
      var e :| e in s2 && e.Mapping? && ToolName(e) == n;
      assert e in Elems(s2) - {NonMapping};
    }
  }

  // ---------------------------------------------------------------------
  // Properties of the scorers
  // ---------------------------------------------------------------------

  /** A precision of 1.0 means exactly that no unexpected tool was used. */
  lemma PrecisionPerfectIffNoExtraTools(actual: seq<Entry>, expected: seq<Entry>)
    requires expected != [] && actual != []
    requires Precision(actual, expected).Ok?
    ensures Precision(actual, expected).value.score == 1.0 <==> MappedNames(actual) <= MappedNames(expected)
    ensures Precision(actual, expected).value.tag == "high_precision" <== MappedNames(actual) <= MappedNames(expected)
  {
    var used := MappedNames(actual);
    var wanted := MappedNames(expected);
    IntersectionBound(used, wanted);
    RatioInUnit(|used * wanted|, |used|);
  }

  /** A coverage of 1.0 means exactly that every expected tool was used. */
  lemma CoveragePerfectIffAllExpectedUsed(actual: seq<Entry>, expected: seq<Entry>)
    requires MappedNames(expected) != {}
    ensures Coverage(actual, expected).score == 1.0 <==> MappedNames(expected) <= MappedNames(actual)
    ensures Coverage(actual, expected).tag == "no_match" <==> MappedNames(expected) * MappedNames(actual) == {}
  {
    var used := MappedNames(actual);
    var wanted := MappedNames(expected);
    IntersectionBound(wanted, used);
    assert used * wanted == wanted * used;
    RatioInUnit(|used * wanted|, |wanted|);
  }

  /** Precision looks only at the sets of entries: reordering or duplicating
      entries of either list keeps whether it raises, its score and its label. */
  lemma PrecisionIgnoresOrderAndDuplicates(a1: seq<Entry>, a2: seq<Entry>, e1: seq<Entry>, e2: seq<Entry>)
    requires Elems(a1) == Elems(a2) && Elems(e1) == Elems(e2)
    ensures Precision(a1, e1).Ok? == Precision(a2, e2).Ok?
    ensures Precision(a1, e1).Ok? ==>
      Precision(a1, e1).value.score == Precision(a2, e2).value.score &&
      Precision(a1, e1).value.tag == Precision(a2, e2).value.tag
  {
    ElemsEmpty(a1, a2);
    ElemsEmpty(e1, e2);
    ElemsAllMappings(a1, a2);
    ElemsAllMappings(e1, e2);
    MappedNamesOfElems(a1, a2);
    MappedNamesOfElems(e1, e2);
  }

  /** A permutation of either list leaves the whole precision result unchanged,
      explanation included. */
  lemma PrecisionIgnoresOrder(a1: seq<Entry>, a2: seq<Entry>, e1: seq<Entry>, e2: seq<Entry>)
    requires multiset(a1) == multiset(a2) && multiset(e1) == multiset(e2)
    ensures Precision(a1, e1) == Precision(a2, e2)
  {
    PermutationElems(a1, a2);
    PermutationElems(e1, e2);
    assert |a1| == |multiset(a1)| == |a2|;
    PrecisionIgnoresOrderAndDuplicates(a1, a2, e1, e2);
    MappedNamesOfElems(a1, a2);
    MappedNamesOfElems(e1, e2);
  }

  /** Coverage looks only at the sets of mapping entries: reordering,
      duplicating, adding or dropping non-mapping entries changes nothing. */
  lemma CoverageIgnoresOrderDuplicatesAndNonMappings(a1: seq<Entry>, a2: seq<Entry>, e1: seq<Entry>, e2: seq<Entry>)
    requires Elems(a1) - {NonMapping} == Elems(a2) - {NonMapping}
    requires Elems(e1) - {NonMapping} == Elems(e2) - {NonMapping}
    ensures Coverage(a1, e1) == Coverage(a2, e2)
  {
    MappedNamesOfElems(a1, a2);
    MappedNamesOfElems(e1, e2);
  }

  /** Exact match, unlike precision, depends on order: swapping two calls
      with different names in a perfectly matching trajectory loses the
      exact match and keeps the precision result. */
  lemma ExactMatchIsOrderSensitive(actual: seq<Entry>, expected: seq<Entry>, i: nat, j: nat)
    requires ExactMatch(actual, expected).Ok? && ExactMatch(actual, expected).value.score == 1.0
    requires i < j < |actual| && ToolName(actual[i]) != ToolName(actual[j])
    ensures ExactMatch(actual[i := actual[j]][j := actual[i]], expected).value.score == 0.0
    ensures Precision(actual[i := actual[j]][j := actual[i]], expected) == Precision(actual, expected)
  {
    var swapped := actual[i := actual[j]][j := actual[i]];
    SwapKeepsEntries(actual, i, j);
    assert ToolName(swapped[i]) != ToolName(expected[i]);
    PrecisionIgnoresOrder(swapped, actual, expected, expected);
  }

  lemma SwapKeepsEntries(s: seq<Entry>, i: nat, j: nat)
    requires i < j < |s| && AllMappings(s)
    ensures var swapped := s[i := s[j]][j := s[i]];
      && |swapped| == |s| && swapped[i] == s[j]
      && AllMappings(swapped)
      && multiset(swapped) == multiset(s)
  {
    var swapped := s[i := s[j]][j := s[i]];
    forall k | 0 <= k < |swapped| ensures swapped[k].Mapping? {
      if k != i && k != j { assert swapped[k] == s[k]; }
    }
  }

  /** A trajectory that matches exactly also scores full precision and full
      coverage. */
  lemma ExactMatchGivesFullMarks(actual: seq<Entry>, expected: seq<Entry>)
    requires expected != []
    requires ExactMatch(actual, expected).Ok? && ExactMatch(actual, expected).value.score == 1.0
    ensures Precision(actual, expected).Ok?
    ensures Precision(actual, expected).value.score == 1.0
    ensures Precision(actual, expected).value.tag == "high_precision"
    ensures Coverage(actual, expected).score == 1.0
    ensures Coverage(actual, expected).tag == "perfect_match"
  {
    assert MappedNames(actual) == MappedNames(expected) by {
      forall n | n in MappedNames(actual) ensures n in MappedNames(expected) {
        var e :| e in actual && e.Mapping? && ToolName(e) == n;
        var k :| 0 <= k < |actual| && actual[k] == e;
        assert expected[k] in expected && ToolName(expected[k]) == n;
      }
      forall n | n in MappedNames(expected) ensures n in MappedNames(actual) {
        var e :| e in expected && e.Mapping? && ToolName(e) == n;
        var k :| 0 <= k < |expected| && expected[k] == e;
        assert actual[k] in actual && ToolName(actual[k]) == n;
      }
    }
    NonEmptyNames(expected);
    PrecisionPerfectIffNoExtraTools(actual, expected);
    CoveragePerfectIffAllExpectedUsed(actual, expected);
  }

  lemma ElemsEmpty<T>(s1: seq<T>, s2: seq<T>)
    requires Elems(s1) == Elems(s2)
    ensures s1 == [] <==> s2 == []
  {
    if s1 != [] { assert s1[0] in Elems(s2); }
    if s2 != [] { assert s2[0] in Elems(s1); }
  }

  lemma ElemsAllMappings(s1: seq<Entry>, s2: seq<Entry>)
    requires Elems(s1) == Elems(s2)
    ensures AllMappings(s1) <==> AllMappings(s2)
  {
    if !AllMappings(s1) {
      var k :| 0 <= k < |s1| && s1[k].NonMapping?;
      assert s1[k] in Elems(s2);
    }
    if !AllMappings(s2) {
      var k :| 0 <= k < |s2| && s2[k].NonMapping?;
      assert s2[k] in Elems(s1);
    }
  }

  lemma PermutationElems<T>(s1: seq<T>, s2: seq<T>)
    requires multiset(s1) == multiset(s2)
    ensures Elems(s1) == Elems(s2)
  {
    forall x ensures x in Elems(s1) <==> x in Elems(s2) {
      assert x in s1 <==> x in multiset(s1);
      assert x in s2 <==> x in multiset(s2);
    }
  }

  /** Two calls against one expected call, one of them unexpected: the
      lengths differ, half the tools used were expected, and every expected
      tool was used. */
  lemma OneExtraToolExample()
    ensures var search := Mapping(map[ToolNameKey := "search"]);
      var calculator := Mapping(map[ToolNameKey := "calc"]);
      && ExactMatch([search, calculator], [search]) == Ok(EvaluationResult(0.0, "no_exact_match", LengthMismatch(1, 2)))
      && Precision([search, calculator], [search]).Ok?
      && Precision([search, calculator], [search]).value.score == 0.5
      && Precision([search, calculator], [search]).value.tag == "low_precision"
      && Coverage([search, calculator], [search]).score == 1.0
      && Coverage([search, calculator], [search]).tag == "perfect_match"
  {
    var search := Mapping(map[ToolNameKey := "search"]);
    var calculator := Mapping(map[ToolNameKey := "calc"]);
    assert ToolName(search) == "search" && ToolName(calculator) == "calc";
    assert MappedNames([search, calculator]) == {"search", "calc"} by {
      assert search in [search, calculator] && calculator in [search, calculator];
    }
    assert MappedNames([search]) == {"search"} by {
      assert search in [search];
    }
    assert {"search", "calc"} * {"search"} == {"search"};
  }

  // ---------------------------------------------------------------------
  // The tool-extraction heuristic
  // ---------------------------------------------------------------------

  /** Phrases whose presence in the lower-cased response counts as a retrieval. */
  const Keywords: seq<string> :=
    ["according to", "based on", "source:", "[citation", "retrieved", "documentation"]

  const RetrieveToolName: string := "retrieve_rag_documentation"

  /** Responses longer than this are cut to this many characters plus "...". */
  const ToolInputLimit: nat := 100

  /** Lower-casing of one character; letters outside A-Z are kept. */
  function LowerChar(c: char): char {
    if 'A' <= c <= 'Z' then (c as int - 'A' as int + 'a' as int) as char else c
  }

  function Lower(s: string): (r: string)
    ensures |r| == |s|
    ensures forall i :: 0 <= i < |s| ==> r[i] == LowerChar(s[i])
  {
    seq(|s|, i requires 0 <= i < |s| => LowerChar(s[i]))
  }

  /** `word` occurs in `text` starting at index `i`. */
  predicate OccursAt(text: string, word: string, i: int) {
    0 <= i <= |text| - |word| && text[i..i + |word|] == word
  }

  /** Python's `word in text` on strings. */
  predicate Contains(text: string, word: string) {
    exists i :: 0 <= i <= |text| - |word| && OccursAt(text, word, i)
  }

  /** `any(keyword in text.lower() for keyword in Keywords)` */
  predicate MentionsSource(text: string) {
    exists k :: k in Keywords && Contains(Lower(text), k)
  }

  /** The recorded input of the synthetic call: the whole response, or its
      first 100 characters followed by "..." when it is longer. */
  function ToolInput(text: string): (r: string)
    ensures |r| <= ToolInputLimit + 3
    ensures |text| <= ToolInputLimit ==> r == text
    ensures |text| > ToolInputLimit ==> |r| == ToolInputLimit + 3
    ensures |text| > ToolInputLimit ==> r[..ToolInputLimit] == text[..ToolInputLimit] && r[ToolInputLimit..] == "..."
  {
    if |text| > ToolInputLimit then text[..ToolInputLimit] + "..." else text
  }

  /** The tool calls inferred from a response text: one retrieval call when
      the text mentions a source, none otherwise. */
  function ExtractToolCalls(text: string): (calls: seq<Entry>)
    ensures |calls| <= 1
    ensures calls != [] <==> MentionsSource(text)
    ensures calls != [] ==>
      && calls[0].Mapping?
      && calls[0].fields.Keys == {ToolNameKey, ToolInputKey}
      && ToolName(calls[0]) == RetrieveToolName
      && calls[0].fields[ToolInputKey] == ToolInput(text)
  {
    if MentionsSource(text) then
      [Mapping(map[ToolNameKey := RetrieveToolName, ToolInputKey := ToolInput(text)])]
    else
      []
  }

  lemma LowerConcat(a: string, b: string)
    ensures Lower(a + b) == Lower(a) + Lower(b)
  {
    assert forall i :: 0 <= i < |a + b| ==> Lower(a + b)[i] == (Lower(a) + Lower(b))[i];
  }

  /** Once a response mentions a source, surrounding it with more text never
      hides the mention. */
  lemma MentionSurvivesContext(before: string, text: string, after: string)
    requires MentionsSource(text)
    ensures MentionsSource(before + text + after)
  {
    var k :| k in Keywords && Contains(Lower(text), k);
    var i :| 0 <= i <= |Lower(text)| - |k| && OccursAt(Lower(text), k, i);
    LowerConcat(before, text);
    LowerConcat(before + text, after);
    OccursInContext(Lower(before), Lower(text), Lower(after), k, i);
    assert OccursAt(Lower(before + text + after), k, |before| + i);
  }

  lemma OccursInContext(before: string, text: string, after: string, word: string, i: int)
    requires OccursAt(text, word, i)
    ensures OccursAt(before + text + after, word, |before| + i)
  {
    var whole := before + text + after;
    assert whole[|before|..|before| + |text|] == text;
    assert whole[|before| + i..|before| + i + |word|] == text[i..i + |word|];
  }

  /** The row expectation of a retrieval-only query. */
  function RetrievalExpected(): seq<Entry> {
    [Mapping(map[ToolNameKey := RetrieveToolName])]
  }

  /** Scored against a row that expects one retrieval, the extracted calls
      match exactly, reach full precision and full coverage precisely when the
      response mentions a source, and otherwise score 0.0 on all three. */
  lemma ExtractionAgainstRetrievalRow(text: string)
    ensures var calls := ExtractToolCalls(text);
      && ExactMatch(calls, RetrievalExpected()).Ok?
      && Precision(calls, RetrievalExpected()).Ok?
      && (ExactMatch(calls, RetrievalExpected()).value.tag == "exact_match" <==> MentionsSource(text))
      && (Precision(calls, RetrievalExpected()).value.tag ==
            (if MentionsSource(text) then "high_precision" else "no_tools_used"))
      && (Coverage(calls, RetrievalExpected()).tag ==
            (if MentionsSource(text) then "perfect_match" else "no_match"))
  {
    var calls := ExtractToolCalls(text);
    var expected := RetrievalExpected();
    assert ToolName(expected[0]) == RetrieveToolName;
    assert MappedNames(expected) == {RetrieveToolName} by {
      assert expected[0] in expected;
    }
    if MentionsSource(text) {
      assert MappedNames(calls) == {RetrieveToolName} by {
        assert calls[0] in calls;
      }
      ExactMatchGivesFullMarks(calls, expected);
    } else {
      assert MappedNames(calls) == {};
    }
  }
}
