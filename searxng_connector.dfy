/**
 * The parts of the SearXNG search connector that surround its HTTP call:
 * normalisation of the base URL, the query parameters of the request, and
 * the shaping of the decoded JSON answer (truncation of the results to
 * `max_results`, defaults for missing fields).
 *
 * The HTTP exchange itself is not modelled: the decoded answer is an input
 * of `Search`, and the request it would send is one of its outputs.
 */
module Searxng {
  import opened Wrappers

  /** A decoded JSON value; Python's None is JNull. */
  datatype Json =
    | JNull
    | JBool(b: bool)
    | JNumber(n: real)
    | JString(s: string)
    | JArray(items: seq<Json>)
    | JObject(fields: map<string, Json>)

  /** A query-parameter value: the page number is sent as an integer. */
  datatype ParamValue = Text(text: string) | Number(number: int)

  /** The GET request the connector sends. */
  datatype Request = Request(url: string, params: map<string, ParamValue>)

  const DefaultBaseUrl: string := "http://localhost:32768"
  const DefaultLanguage: string := "en"
  const DefaultPage: int := 1
  const ListSeparator: char := ','

  // ---------------------------------------------------------------------
  // Base URL normalisation
  // ---------------------------------------------------------------------

  /** `url.rstrip("/")`: the longest prefix of `url` not ending in a slash
      such that only slashes were removed. */
  function TrimTrailingSlashes(url: string): (r: string)
    ensures r <= url
    ensures r == [] || r[|r| - 1] != '/'
    ensures forall i :: |r| <= i < |url| ==> url[i] == '/'
  {
    if url != [] && url[|url| - 1] == '/' then TrimTrailingSlashes(url[..|url| - 1]) else url
  }

  /** The three properties of TrimTrailingSlashes determine its result. */
  lemma TrimTrailingSlashesUnique(url: string, r: string)
    requires r <= url
    requires r == [] || r[|r| - 1] != '/'
    requires forall i :: |r| <= i < |url| ==> url[i] == '/'
    ensures r == TrimTrailingSlashes(url)
  {
  }

  /** Normalising twice is normalising once, and adding trailing slashes to
      a URL does not change its normal form. */
  lemma TrimTrailingSlashesIdempotent(url: string, slashes: nat)
    ensures TrimTrailingSlashes(TrimTrailingSlashes(url)) == TrimTrailingSlashes(url)
    ensures TrimTrailingSlashes(url + seq(slashes, _ => '/')) == TrimTrailingSlashes(url)
  {
    var r := TrimTrailingSlashes(url);
    var longer := url + seq(slashes, _ => '/');
    assert r <= longer;
    TrimTrailingSlashesUnique(longer, r);
  }

  // ---------------------------------------------------------------------
  // Comma-joined list parameters
  // ---------------------------------------------------------------------

  /** `sep.join(parts)` */
  function Join(parts: seq<string>, sep: char): string {
    if |parts| == 0 then ""
    else if |parts| == 1 then parts[0]
    else parts[0] + [sep] + Join(parts[1..], sep)
  }

  /** Splitting on a separator, as the search server reads a list parameter. */
  function Split(s: string, sep: char): (parts: seq<string>)
    ensures |parts| >= 1
  {
    if s == [] then [""]
    else
      var rest := Split(s[1..], sep);
      if s[0] == sep then [""] + rest
      else [[s[0]] + rest[0]] + rest[1..]
  }

  lemma {:induction false} SplitAfterWord(word: string, sep: char, tail: seq<string>)
    requires sep !in word
    ensures Split(word + [sep] + Join(tail, sep), sep) == [word] + Split(Join(tail, sep), sep)
    ensures Split(word, sep) == [word]
  {
    if word != [] {
      assert (word + [sep] + Join(tail, sep))[1..] == word[1..] + [sep] + Join(tail, sep);
      SplitAfterWord(word[1..], sep, tail);
      assert [word[0]] + word[1..] == word;
    } else {
      assert word + [sep] + Join(tail, sep) == [sep] + Join(tail, sep);
    }
  }

  /** A non-empty list whose items contain no separator is recovered from
      its join. */
  lemma {:induction false} SplitJoin(parts: seq<string>, sep: char)
    requires |parts| >= 1
    requires forall i :: 0 <= i < |parts| ==> sep !in parts[i]
    ensures Split(Join(parts, sep), sep) == parts
  {
    if |parts| == 1 {
      SplitAfterWord(parts[0], sep, []);
    } else {
      SplitAfterWord(parts[0], sep, parts[1..]);
      SplitJoin(parts[1..], sep);
    }
  }

  // ---------------------------------------------------------------------
  // Query parameters
  // ---------------------------------------------------------------------

  /** Python truthiness of an optional list: present and non-empty. */
  predicate IsGiven<T>(o: Option<seq<T>>) {
    o.Some? && o.value != []
  }

  /** What the parameter map of a search holds. */
  predicate ParamsFor(
    params: map<string, ParamValue>,
    query: string, categories: Option<seq<string>>, engines: Option<seq<string>>,
    language: string, page: int, timeRange: Option<string>)
  {
    && params.Keys ==
         {"q", "format", "language", "pageno"}
         + (if IsGiven(categories) then {"categories"} else {})
         + (if IsGiven(engines) then {"engines"} else {})
         + (if IsGiven(timeRange) then {"time_range"} else {})
    && params["q"] == Text(query)
    && params["format"] == Text("json")
    && params["language"] == Text(language)
    && params["pageno"] == Number(page)
    && (IsGiven(categories) ==> params["categories"] == Text(Join(categories.value, ListSeparator)))
    && (IsGiven(engines) ==> params["engines"] == Text(Join(engines.value, ListSeparator)))
    && (IsGiven(timeRange) ==> params["time_range"] == Text(timeRange.value))
  }

  /** Builds the parameter map: four fixed keys, then each optional key
      inserted only when its argument is given. */
  method BuildParams(
    query: string, categories: Option<seq<string>>, engines: Option<seq<string>>,
    language: string, page: int, timeRange: Option<string>)
    returns (params: map<string, ParamValue>)
    ensures ParamsFor(params, query, categories, engines, language, page, timeRange)
  {
    params := map["q" := Text(query), "format" := Text("json"), "language" := Text(language), "pageno" := Number(page)];
    if IsGiven(categories) {
      params := params["categories" := Text(Join(categories.value, ListSeparator))];
    }
    if IsGiven(engines) {
      params := params["engines" := Text(Join(engines.value, ListSeparator))];
    }
    if IsGiven(timeRange) {
      params := params["time_range" := Text(timeRange.value)];
    }
  }

  // ---------------------------------------------------------------------
  // Response shaping
  // ---------------------------------------------------------------------

  /** `data.get(key, default)` */
  function Get(data: map<string, Json>, key: string, default: Json): Json {
    if key in data then data[key] else default
  }

  /** The index at which Python's slice `s[:stop]` ends, for `len(s) == n`:
      a negative stop counts from the end, and the result is clamped to [0, n]. */
  function SliceStop(n: nat, stop: int): (k: nat)
    ensures k <= n
  {
    if stop < 0 then (if n + stop < 0 then 0 else n + stop)
    else if stop > n then n
    else stop
  }

  const ResponseKeys: set<string> := {"query", "number_of_results", "results", "suggestions", "infoboxes"}

  /** The connector, holding its normalised base URL. */
  class SearxngConnector {
    var baseUrl: string

    ghost predicate Valid()
      reads this
    {
      baseUrl == [] || baseUrl[|baseUrl| - 1] != '/'
    }

    constructor (baseUrl: string := DefaultBaseUrl)
      ensures Valid()
      ensures this.baseUrl == TrimTrailingSlashes(baseUrl)
    {
      this.baseUrl := TrimTrailingSlashes(baseUrl);
    }

    /** One search, given the decoded JSON object the server answered with.
        Returns the request sent and the record handed back to the caller.
        The defaults are those of the Python signature. */
    method Search(
      data: map<string, Json>, query: string,
      categories: Option<seq<string>> := None, engines: Option<seq<string>> := None,
      language: string := DefaultLanguage, page: int := DefaultPage,
      timeRange: Option<string> := None, maxResults: Option<int> := None)
      returns (request: Request, response: map<string, Json>)
      requires Valid()
      requires "results" in data ==> data["results"].JArray?
      ensures request.url == baseUrl + "/search"
      // the normalised base URL never yields a doubled slash before "search"
      ensures |request.url| == |baseUrl| + 7 && request.url[|baseUrl|..] == "/search"
      ensures |baseUrl| == 0 || request.url[|baseUrl| - 1] != '/'
      ensures ParamsFor(request.params, query, categories, engines, language, page, timeRange)
      ensures response.Keys == ResponseKeys
      ensures response["query"] == Get(data, "query", JNull)
      ensures response["number_of_results"] == Get(data, "number_of_results", JNull)
      ensures response["suggestions"] == Get(data, "suggestions", JArray([]))
      ensures response["infoboxes"] == Get(data, "infoboxes", JArray([]))
      ensures response["results"].JArray?
      ensures var all := Get(data, "results", JArray([])).items; var kept := response["results"].items;
        && kept <= all
        && (maxResults.Some? && 0 < maxResults.value < |all| ==> kept == all[..maxResults.value])
        && (maxResults.None? || maxResults.value == 0 || maxResults.value >= |all| ==> kept == all)
        && (maxResults.Some? && maxResults.value < 0 ==>
              |all| - |kept| == (if -maxResults.value < |all| then -maxResults.value else |all|))
    {
      var params := BuildParams(query, categories, engines, language, page, timeRange);
      request := Request(baseUrl + "/search", params);

      var results := Get(data, "results", JArray([])).items;
      if maxResults.Some? && maxResults.value != 0 && |results| > maxResults.value {
        results := results[..SliceStop(|results|, maxResults.value)];
      }
      response := map[
        "query" := Get(data, "query", JNull),
        "number_of_results" := Get(data, "number_of_results", JNull),
        "results" := JArray(results),
        "suggestions" := Get(data, "suggestions", JArray([])),
        "infoboxes" := Get(data, "infoboxes", JArray([]))
      ];
    }
  }
}
