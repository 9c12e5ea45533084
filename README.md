# Trajectory scoring and SearXNG connector, modelled in Dafny

This project models the two pieces of logic in the `adk-samples` repository
that can be stated precisely:

* **Trajectory scoring** of the RAG agent's evaluation suite
  (`RAG/eval/test_eval_phoenix.py`), module `TrajectoryEval` in
  `trajectory_eval.dfy`. An `EvaluationResult` carries a score, a label and an
  explanation, and its construction fails unless the score lies in [0, 1].
  Three scorers compare the tool calls an agent made with the tool calls a
  dataset row expects:
  * an exact ordered match of the tool-name sequences;
  * precision, the share of the distinct tools used that were expected;
  * coverage, the share of the distinct expected tools that were used.

  The suite also has a keyword heuristic. It turns the agent's response text
  into at most one synthetic `retrieve_rag_documentation` call.
* **The SearXNG connector** (`searxng_search/searxng_mcp/connector.py`),
  module `Searxng` in `searxng_connector.dfy`. It covers everything around the
  HTTP call:
  * removal of trailing slashes from the base URL, kept in the class's field;
  * the query-parameter map, whose optional list parameters are comma-joined;
  * truncation of the results to `max_results`, with Python's slice semantics;
  * the five-key record handed back to the caller, with its defaults.

`wrappers.dfy` holds the `Option` and `Result` types.

Modelling choices:
* Tool-call lists arrive already decoded. Each element is an `Entry`: either a
  `Mapping` of string fields or a `NonMapping`, which stands for any other JSON
  value. Calling `.get` on a `NonMapping` raises `AttributeError`. The exact and
  precision scorers therefore return `Err(AttributeError)` for such an entry,
  but only when the code actually reaches it. The exact scorer returns early on
  a length mismatch, and the precision scorer returns early on an empty
  expected list. Coverage skips such entries, so it is total.
* Scores are exact `real` values built from set cardinalities. The 0.7 and 0.9
  thresholds are therefore exact comparisons. `EvaluationResult` is a datatype,
  and `Evaluation` is its subtype whose score is in [0, 1]. Each scorer builds
  its result through `NewEvaluationResult`, which models the validation in
  `__post_init__`. Each scorer's contract states that this validation never
  fails.
* The `explanation` is kept as a structured `Explanation` value. It holds the
  counts, name sequences and name sets that the source's f-strings embed.
* With an empty `actual` and a non-empty `expected` whose entries are all
  non-mappings, the expected name set is empty, so coverage gives
  1.0/"correct_no_tools" (`RAG/eval/test_eval_phoenix.py:186-190`).
* A negative `max_results` is truthy in Python. The slice `results[:m]` then
  drops the last `-m` results. The model keeps this behaviour.

## Model

| member | source | states |
|---|---|---|
| `TrajectoryEval.NewEvaluationResult` | RAG/eval/test_eval_phoenix.py:39-50 | construction succeeds exactly when 0 <= score <= 1 and keeps the three fields; otherwise it fails with ValueError |
| `TrajectoryEval.Names` | RAG/eval/test_eval_phoenix.py:132-133 | the name list exists exactly when every entry is a mapping; it has one name per entry, in order, with "" for a missing `tool_name` |
| `TrajectoryEval.ExactMatch` | RAG/eval/test_eval_phoenix.py:116-138 | different lengths give 0.0/"no_exact_match" with the two lengths; with equal lengths it raises iff some entry is not a mapping; otherwise the score is 1.0 iff the names agree position by position, the score is 0.0 or 1.0, and the label is "exact_match" iff the score is 1.0; validation never fails |
| `TrajectoryEval.Precision` | RAG/eval/test_eval_phoenix.py:141-173 | an empty expected list gives 1.0/"perfect" for an empty actual list and 0.0/"unexpected_tools" otherwise; with expected tools it raises iff an entry is not a mapping; no calls give 0.0/"no_tools_used"; otherwise the score is \|A∩E\|/\|A\| over name sets, labelled "high_precision" iff >= 0.9, "medium_precision" iff in [0.7, 0.9), "low_precision" iff < 0.7 |
| `TrajectoryEval.Coverage` | RAG/eval/test_eval_phoenix.py:176-205 | an empty expected name set gives 1.0/"correct_no_tools" iff the actual name set is empty, else 0.0/"unexpected_tools"; otherwise the score is \|A∩E\|/\|E\|, labelled "perfect_match" iff 1.0, "good_match" iff in [0.7, 1), "partial_match" iff in (0, 0.7), "no_match" iff 0; the result always lies in [0, 1] |
| `TrajectoryEval.IntersectionBound` | RAG/eval/test_eval_phoenix.py:162-163 | \|A∩B\| <= \|A\|, with equality iff A ⊆ B, so both ratios stay in [0, 1] |
| `TrajectoryEval.NonEmptyNames` | RAG/eval/test_eval_phoenix.py:156-160 | a non-empty list of mappings has a non-empty name set, so "no_tools_used" arises only from an empty call list |
| `TrajectoryEval.MappedNamesOfElems` | RAG/eval/test_eval_phoenix.py:185-186 | the name set depends only on the set of mapping entries of the list |
| `TrajectoryEval.PrecisionPerfectIffNoExtraTools` | RAG/eval/test_eval_phoenix.py:162-170 | precision is 1.0 iff every tool used was expected, and it is then labelled "high_precision" |
| `TrajectoryEval.CoveragePerfectIffAllExpectedUsed` | RAG/eval/test_eval_phoenix.py:193-202 | coverage is 1.0 iff every expected tool was used; the label is "no_match" iff no expected tool was used |
| `TrajectoryEval.PrecisionIgnoresOrderAndDuplicates` | RAG/eval/test_eval_phoenix.py:150-170 | lists with the same sets of entries give the same outcome (error or not), score and label |
| `TrajectoryEval.PrecisionIgnoresOrder` | RAG/eval/test_eval_phoenix.py:150-173 | permuting either list leaves the whole precision result unchanged, explanation included |
| `TrajectoryEval.CoverageIgnoresOrderDuplicatesAndNonMappings` | RAG/eval/test_eval_phoenix.py:185-205 | reordering or duplicating entries, and adding or removing non-mapping entries, leaves the coverage result unchanged |
| `TrajectoryEval.ExactMatchIsOrderSensitive` | RAG/eval/test_eval_phoenix.py:132-135 | swapping two differently named calls of an exact match drops the exact score to 0.0 while the precision result stays the same |
| `TrajectoryEval.ExactMatchGivesFullMarks` | RAG/eval/test_eval_phoenix.py:116-205 | with expected tools, an exact match also scores precision 1.0/"high_precision" and coverage 1.0/"perfect_match" |
| `TrajectoryEval.OneExtraToolExample` | RAG/eval/test_eval_phoenix.py:125-205 | for calls [search, calc] against [search]: exact 0.0 with lengths 1 and 2, precision 0.5/"low_precision", coverage 1.0/"perfect_match" |
| `TrajectoryEval.LowerConcat` | RAG/eval/test_eval_phoenix.py:88 | lower-casing distributes over concatenation, so a keyword found in part of a text is found in the lower-cased whole |
| `TrajectoryEval.ToolInput` | RAG/eval/test_eval_phoenix.py:93 | the recorded input is the whole text when it has at most 100 characters; otherwise it is its first 100 characters followed by "...", so it never exceeds 103 characters |
| `TrajectoryEval.ExtractToolCalls` | RAG/eval/test_eval_phoenix.py:87-94 | at most one call; there is one iff the lower-cased text contains one of the six keywords; that call has exactly the keys `tool_name` = "retrieve_rag_documentation" and `tool_input` |
| `TrajectoryEval.MentionSurvivesContext` | RAG/eval/test_eval_phoenix.py:88-90 | adding text before or after a response that mentions a source never removes the detection |
| `TrajectoryEval.ExtractionAgainstRetrievalRow` | RAG/eval/test_eval_phoenix.py:87-94 | against a row expecting one retrieval, the extracted calls score "exact_match", "high_precision" and "perfect_match" iff the text mentions a source, and otherwise "no_exact_match", "no_tools_used" and "no_match" |
| `Searxng.TrimTrailingSlashes` | searxng_search/searxng_mcp/connector.py:6 | the result is a prefix of the URL, does not end in "/", and only slashes were removed |
| `Searxng.TrimTrailingSlashesUnique` | searxng_search/searxng_mcp/connector.py:6 | those three properties determine the normalised URL |
| `Searxng.TrimTrailingSlashesIdempotent` | searxng_search/searxng_mcp/connector.py:6 | normalising twice equals normalising once; appending slashes does not change the normal form |
| `Searxng.SplitJoin` | searxng_search/searxng_mcp/connector.py:39-42 | a non-empty list whose items contain no comma is recovered by splitting its comma-join |
| `Searxng.BuildParams` | searxng_search/searxng_mcp/connector.py:32-44 | the map always has "q", "format" = "json", "language" and "pageno" from the arguments; "categories" and "engines" are present iff their list is given and non-empty, holding its comma-join; "time_range" is present iff given and non-empty; there are no other keys |
| `Searxng.SearxngConnector.constructor` | searxng_search/searxng_mcp/connector.py:5-6 | the base URL defaults to "http://localhost:32768"; the stored base URL is the argument with trailing slashes removed, so it does not end in "/" |
| `Searxng.SearxngConnector.Search` | searxng_search/searxng_mcp/connector.py:8-62 | with the signature's defaults (language "en", page 1, no lists, no time range, no limit), the request goes to base URL + "/search", with exactly one slash before "search", and carries the parameters above; the record has exactly five keys; "query" and "number_of_results" are null when absent, and "suggestions" and "infoboxes" default to []; the results are always a prefix of the server's results: exactly the first `max_results` when 0 < `max_results` < count, unchanged when `max_results` is None, 0 or at least the count, and, when it is negative, shorter by `-max_results` results (or emptied when that exceeds the count) |

## Left out

- JSON decoding of the agent output and of a string-typed `expected_tool_use`, together with the `.get(..., [])` defaults for the two lists. The scorers take both lists already decoded. A parse failure propagates unchanged in the source.
- Rendering of explanations as text: the `{score:.2f}` float formatting and Python's list repr of sorted names. `Explanation` keeps the data they print.
- Field values other than strings. A `tool_name` is modelled as a string, or as "" when it is missing.
- Python floats. Scores are exact rationals. For set sizes below 2^26 the float ratios compare with 0.7, 0.9 and 1.0 the same way as the exact ones do.
- TrajectoryEval.Lower: folds only A-Z, not the whole of Python's Unicode `str.lower()`. Only two non-ASCII characters lower to ASCII letters: U+212A becomes "k", and U+0130 becomes "i" followed by U+0307. No keyword contains "k", and no keyword ends in "i". Detection of the six keywords is therefore unaffected.
- The isinstance checks of `EvaluationResult.__post_init__` are enforced by Dafny's types. `to_dict` is a plain field dump and is not modelled.
- `call_rag_agent`'s agent runner and session, the joining of response parts, `task_function`, `run_local_phoenix_experiment`, `load_test_data` and `main`. These are agent framework calls, tracing registration, DataFrame assembly and file I/O.
- The HTTP request of `search`: the `httpx` client, its `timeout`, `raise_for_status` and `response.json()`. The decoded answer is an input of `Search`.
- Searxng.SearxngConnector.Search: requires "results" to be a JSON array when present. A server answer whose "results" is a string or another type is not modelled.
- JSON numbers are modelled as reals. They are only passed through.
- The agents, tools, tracing set-up, MCP server and migration script of the repository. These are configuration of third-party frameworks and I/O.
