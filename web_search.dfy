/**
 * The DuckDuckGo search tool: how its settings are validated, how the
 * backend is chosen, how a failed search is reported, and how the result
 * records are turned into the text handed back to the agent. The search
 * service itself is a function parameter.
 */
module WebSearch {
  import opened Wrappers
  import opened Text

  /** One result record as the search service returns it. */
  type Record = map<string, string>

  const DefaultMaxResults: int := 5
  const DefaultBackend: string := "text"
  const NoResults: string := "No DuckDuckGo results found for that query."
  const FailurePrefix: string := "DuckDuckGo search failed: "
  const EntrySeparator: string := "\n\n"

  /** The tool's two settings. */
  datatype SearchTool = SearchTool(maxResults: int, backend: string)

  /** The ways the tool fails: a rejected setting, or a failed search. */
  datatype SearchError =
    | InvalidMaxResults(given: int)
    | SearchFailed(message: string)

  /** Which of the service's search kinds is called. */
  datatype Backend = TextSearch | NewsSearch | ImageSearch

  /**
   * `create_web_search_tool`: `max_results` must be at least 1 (the field's
   * `ge=1` bound), the backend is the default one.
   */
  function CreateWebSearchTool(maxResults: int): (r: Result<SearchTool, SearchError>)
    ensures r.Ok? <==> maxResults >= 1
    ensures r.Ok? ==> r.value.maxResults == maxResults && r.value.backend == DefaultBackend
    ensures r.Err? ==> r.error == InvalidMaxResults(maxResults)
  {
    if maxResults >= 1 then Ok(SearchTool(maxResults, DefaultBackend))
    else Err(InvalidMaxResults(maxResults))
  }

  /** A tool built with the default argument is valid and returns up to five hits. */
  lemma DefaultToolIsValid()
    ensures CreateWebSearchTool(DefaultMaxResults) == Ok(SearchTool(5, "text"))
  {
  }

  /** `"news"` and `"images"` pick those searches; every other name picks text search. */
  function SelectBackend(name: string): (b: Backend)
    ensures b == NewsSearch <==> name == "news"
    ensures b == ImageSearch <==> name == "images"
    ensures b == TextSearch <==> name != "news" && name != "images"
  {
    if name == "news" then NewsSearch
    else if name == "images" then ImageSearch
    else TextSearch
  }

  /**
   * `_search`: call the service with the selected backend and the tool's
   * limit; a failure comes back as `SearchFailed` whose message is the
   * fixed prefix followed by the service's own message, and a success is
   * passed through unchanged.
   */
  function Search(tool: SearchTool, query: string,
                  service: (Backend, string, int) -> Result<seq<Record>, string>): (r: Result<seq<Record>, SearchError>)
    ensures var answer := service(SelectBackend(tool.backend), query, tool.maxResults);
            && (r.Ok? <==> answer.Ok?)
            && (r.Ok? ==> r.value == answer.value)
            && (r.Err? ==> r.error == SearchFailed(FailurePrefix + answer.error))
  {
    match service(SelectBackend(tool.backend), query, tool.maxResults)
    case Ok(results) => Ok(results)
    case Err(message) => Err(SearchFailed(FailurePrefix + message))
  }

  /** `item.get(key)` read through Python truthiness: a missing key reads as `""`. */
  function Get(item: Record, key: string): string
  {
    if key in item then item[key] else ""
  }

  /**
   * `item.get(k0) or item.get(k1) or ... or default`: the value of the
   * first key whose value is non-empty, or `default` when there is none.
   */
  function FirstNonEmpty(item: Record, keys: seq<string>, default: string): string
  {
    if |keys| == 0 then default
    else if Get(item, keys[0]) != "" then Get(item, keys[0])
    else FirstNonEmpty(item, keys[1..], default)
  }

  /** The first non-empty value wins; without one, the default is used. */
  lemma {:induction false} FirstNonEmptyPicksFirst(item: Record, keys: seq<string>, default: string, j: nat)
    requires j <= |keys|
    requires forall i :: 0 <= i < j ==> Get(item, keys[i]) == ""
    requires j < |keys| ==> Get(item, keys[j]) != ""
    ensures FirstNonEmpty(item, keys, default) == if j < |keys| then Get(item, keys[j]) else default
    decreases j
  {
    if j > 0 {
      assert Get(item, keys[0]) == "";
      assert forall i :: 0 <= i < j - 1 ==> keys[1..][i] == keys[i + 1];
      FirstNonEmptyPicksFirst(item, keys[1..], default, j - 1);
    }
  }

  /** The chosen value is the default or the value of one of the keys, and is empty only if the default is. */
  lemma {:induction false} FirstNonEmptyFrom(item: Record, keys: seq<string>, default: string)
    ensures var v := FirstNonEmpty(item, keys, default);
            && (v == default || exists i :: 0 <= i < |keys| && v == Get(item, keys[i]) != "")
            && (v == "" ==> default == "")
  {
    if |keys| > 0 && Get(item, keys[0]) == "" {
      FirstNonEmptyFrom(item, keys[1..], default);
      var v := FirstNonEmpty(item, keys[1..], default);
      if v != default {
        var i :| 0 <= i < |keys[1..]| && v == Get(item, keys[1..][i]) != "";
        assert keys[1..][i] == keys[i + 1];
      }
    }
  }

  const TitleKeys: seq<string> := ["title", "heading"]
  const UrlKeys: seq<string> := ["href", "url"]
  const SummaryKeys: seq<string> := ["body", "snippet", "description"]

  function Title(item: Record): string
  {
    FirstNonEmpty(item, TitleKeys, "Untitled result")
  }

  function Url(item: Record): string
  {
    FirstNonEmpty(item, UrlKeys, "")
  }

  /** The chosen summary text, stripped only after it has been chosen. */
  function Summary(item: Record): string
  {
    Strip(FirstNonEmpty(item, SummaryKeys, "No summary provided."))
  }

  /** A title is never empty; a summary never starts or ends with whitespace. */
  lemma FieldShapes(item: Record)
    ensures Title(item) != ""
    ensures IsStripped(Summary(item))
  {
    FirstNonEmptyFrom(item, TitleKeys, "Untitled result");
  }

  /**
   * A `body` made only of whitespace is chosen (it is a non-empty string)
   * and then stripped to nothing: the summary is empty even when `snippet`
   * or `description` has text.
   */
  lemma WhitespaceBodyGivesEmptySummary(item: Record)
    requires "body" in item && item["body"] != "" && AllSpace(item["body"])
    ensures Summary(item) == ""
  {
    FirstNonEmptyPicksFirst(item, SummaryKeys, "No summary provided.", 0);
  }

  /** The text of result number `index`. */
  function Entry(index: nat, item: Record): string
  {
    "Result " + NatToString(index) + ": " + Title(item)
    + "\nURL: " + Url(item)
    + "\nSummary: " + Summary(item)
  }

  /** `f(1, xs[0]), f(2, xs[1]), ...`: what a loop over `enumerate(xs, start=1)` produces. */
  function Numbered<T, U>(f: (nat, T) -> U, xs: seq<T>): seq<U>
  {
    if |xs| == 0 then []
    else Numbered(f, xs[..|xs| - 1]) + [f(|xs|, xs[|xs| - 1])]
  }

  /** One output per input, the `i`-th (from 0) made from `xs[i]` under number `i + 1`. */
  lemma {:induction false} NumberedAt<T, U>(f: (nat, T) -> U, xs: seq<T>)
    ensures |Numbered(f, xs)| == |xs|
    ensures forall i :: 0 <= i < |xs| ==> Numbered(f, xs)[i] == f(i + 1, xs[i])
  {
    if |xs| > 0 {
      var init := xs[..|xs| - 1];
      NumberedAt(f, init);
      assert forall i :: 0 <= i < |init| ==> init[i] == xs[i];
    }
  }

  /** The entries of `results`, numbered from 1 in input order. */
  function Entries(results: seq<Record>): seq<string>
  {
    Numbered(Entry, results)
  }

  /** The text `_run` returns for a successful search. */
  function Format(results: seq<Record>): string
  {
    if |results| == 0 then NoResults else Join(Entries(results), EntrySeparator)
  }

  /** One entry per result, the `i`-th (from 0) built from `results[i]` under number `i + 1`. */
  lemma EntriesAt(results: seq<Record>)
    ensures |Entries(results)| == |results|
    ensures forall i :: 0 <= i < |results| ==> Entries(results)[i] == Entry(i + 1, results[i])
  {
    NumberedAt(Entry, results);
  }

  /**
   * Each entry names its own number: the digits after `"Result "` read
   * back as that number, so no two entries carry the same number.
   */
  lemma EntryNumber(index: nat, item: Record)
    ensures var digits := NatToString(index);
            && Entry(index, item)[..7 + |digits|] == "Result " + digits
            && DecimalValue(digits) == index
  {
    NatToStringValue(index);
  }

  /**
   * A further result adds a separator and its own entry after the text
   * of the earlier ones, which is left as it was.
   */
  lemma FormatSnoc(results: seq<Record>, item: Record)
    requires |results| >= 1
    ensures Format(results + [item]) == Format(results) + EntrySeparator + Entry(|results| + 1, item)
  {
    var all := results + [item];
    assert all[..|all| - 1] == results;
    JoinSnoc(Entries(results), Entry(|results| + 1, item), EntrySeparator);
    EntriesAt(results);
  }

  /** A single result is its entry alone, with no separator. */
  lemma FormatSingle(item: Record)
    ensures Format([item]) == Entry(1, item)
  {
    EntriesAt([item]);
  }

  /** The empty-list message is returned exactly when there are no results. */
  lemma FormatEmptyIff(results: seq<Record>)
    ensures Format(results) == NoResults <==> |results| == 0
  {
    if |results| > 0 {
      EntriesAt(results);
      var entries := Entries(results);
      FormatStartsWithEntry(entries);
      assert Format(results)[0] == 'R';
      assert NoResults[0] == 'N';
    }
  }

  /** A join of entries starts with the first entry. */
  lemma {:induction false} FormatStartsWithEntry(entries: seq<string>)
    requires |entries| >= 1
    ensures |Join(entries, EntrySeparator)| >= |entries[0]|
    ensures Join(entries, EntrySeparator)[..|entries[0]|] == entries[0]
  {
    if |entries| > 1 {
      var rest := Join(entries[1..], EntrySeparator);
      assert Join(entries, EntrySeparator) == entries[0] + (EntrySeparator + rest);
    }
  }

  lemma EntriesStep(results: seq<Record>, n: nat)
    requires 1 <= n <= |results|
    ensures Entries(results[..n]) == Entries(results[..n - 1]) + [Entry(n, results[n - 1])]
  {
    assert results[..n][..n - 1] == results[..n - 1];
  }

  /**
   * The loop of `_run` after the search: number the results from 1,
   * build one entry each, join them; an empty list gives the fixed
   * message instead.
   */
  method FormatResults(results: seq<Record>) returns (serialized: string)
    ensures serialized == Format(results)
  {
    if |results| == 0 {
      return NoResults;
    }
    var formatted: seq<string> := [];
    for index := 1 to |results| + 1
      invariant formatted == Entries(results[..index - 1])
    {
      var item := results[index - 1];
      var title := FirstNonEmpty(item, TitleKeys, "Untitled result");
      var url := FirstNonEmpty(item, UrlKeys, "");
      var summary := FirstNonEmpty(item, SummaryKeys, "No summary provided.");
      var entry := "Result " + NatToString(index) + ": " + title + "\nURL: " + url + "\nSummary: " + Strip(summary);
      assert entry == Entry(index, item);
      EntriesStep(results, index);
      formatted := formatted + [entry];
    }
    assert results[..|results|] == results;
    serialized := Join(formatted, EntrySeparator);
  }

  /**
   * `_run`: search, then format. A failed search surfaces as the search's
   * error and produces no text.
   */
  method Run(tool: SearchTool, query: string,
             service: (Backend, string, int) -> Result<seq<Record>, string>)
    returns (r: Result<string, SearchError>)
    ensures Search(tool, query, service).Err? ==> r == Err(Search(tool, query, service).error)
    ensures Search(tool, query, service).Ok? ==> r == Ok(Format(Search(tool, query, service).value))
  {
    var found := Search(tool, query, service);
    match found {
      case Err(e) =>
        r := Err(e);
      case Ok(results) =>
        var text := FormatResults(results);
        r := Ok(text);
    }
  }
}
