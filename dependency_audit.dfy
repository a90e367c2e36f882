/**
 * The dependency audit tool: it parses a comma-separated dependency list,
 * runs one search per dependency and assembles a report. The search is a
 * function parameter; in the application it is the web search tool's
 * `_run` on a tool limited to three hits.
 */
module DependencyAudit {
  import opened Wrappers
  import opened Text
  import WebSearch

  const AuditSearchResults: int := 3
  const NoDependencies: string := "No dependencies provided for audit."
  const ReportHeader: string := "--- Dependency Audit Report ---\n\n"
  const SectionSeparator: string := "\n\n"

  /** The search tool the audit owns is a valid one. */
  lemma AuditSearchToolIsValid()
    ensures WebSearch.CreateWebSearchTool(AuditSearchResults) == Ok(WebSearch.SearchTool(3, "text"))
  {
  }

  // ---------------------------------------------------------------------
  // Parsing the list
  // ---------------------------------------------------------------------

  /** A parsed dependency: non-empty, no comma, no whitespace at either end. */
  predicate Clean(dep: string)
  {
    dep != "" && ',' !in dep && IsStripped(dep)
  }

  /** One piece, stripped, if anything is left of it. */
  function Kept(piece: string): seq<string>
  {
    var dep := Strip(piece);
    if dep == "" then [] else [dep]
  }

  /** The stripped pieces, in order, with those that strip to nothing dropped. */
  function Keep(pieces: seq<string>): seq<string>
  {
    if |pieces| == 0 then [] else Kept(pieces[0]) + Keep(pieces[1..])
  }

  /** `[dep.strip() for dep in dependency_list.split(',') if dep.strip()]`. */
  function ParseDependencies(dependencyList: string): seq<string>
  {
    Keep(Split(dependencyList, ','))
  }

  /** Stripping never brings in a character that was not there. */
  lemma StripKeepsOut(s: string, c: char)
    requires c !in s
    ensures c !in Strip(s)
  {
    StripSlice(s);
    var r, a := Strip(s), LeadingSpace(s);
    assert forall i :: 0 <= i < |r| ==> r[i] == s[a + i];
  }

  /** Kept pieces of comma-free pieces are clean. */
  lemma {:induction false} KeepClean(pieces: seq<string>)
    requires forall i :: 0 <= i < |pieces| ==> ',' !in pieces[i]
    ensures forall d :: d in Keep(pieces) ==> Clean(d)
  {
    if |pieces| > 0 {
      KeepClean(pieces[1..]);
      StripKeepsOut(pieces[0], ',');
    }
  }

  /** Every parsed dependency is non-empty, comma-free and stripped. */
  lemma ParsedAreClean(dependencyList: string)
    ensures forall d :: d in ParseDependencies(dependencyList) ==> Clean(d)
  {
    KeepClean(Split(dependencyList, ','));
  }

  lemma {:induction false} KeepAppend(a: seq<string>, b: seq<string>)
    ensures Keep(a + b) == Keep(a) + Keep(b)
  {
    if |a| == 0 {
      assert a + b == b;
    } else {
      assert (a + b)[0] == a[0] && (a + b)[1..] == a[1..] + b;
      KeepAppend(a[1..], b);
      assert Keep(a + b) == Kept(a[0]) + (Keep(a[1..]) + Keep(b));
    }
  }

  /** Parsing splits at each comma: the parts on either side parse separately. */
  lemma ParseAppend(a: string, b: string)
    ensures ParseDependencies(a + "," + b) == ParseDependencies(a) + ParseDependencies(b)
  {
    SplitAppend(a, b, ',');
    KeepAppend(Split(a, ','), Split(b, ','));
  }

  lemma {:induction false} KeepCleanPieces(deps: seq<string>)
    requires forall i :: 0 <= i < |deps| ==> Clean(deps[i])
    ensures Keep(deps) == deps
  {
    if |deps| > 0 {
      StripStripped(deps[0]);
      KeepCleanPieces(deps[1..]);
      assert [deps[0]] + deps[1..] == deps;
    }
  }

  /** Clean dependencies joined with commas parse back to themselves. */
  lemma {:induction false} ParseJoin(deps: seq<string>)
    requires forall i :: 0 <= i < |deps| ==> Clean(deps[i])
    ensures ParseDependencies(Join(deps, ",")) == deps
  {
    if |deps| == 0 {
      assert Split("", ',') == [""];
    } else {
      SplitJoin(deps, ',');
      KeepCleanPieces(deps);
    }
  }

  /** A list made only of commas and whitespace names no dependency. */
  lemma {:induction false} ParseBlank(dependencyList: string)
    requires forall i :: 0 <= i < |dependencyList| ==> dependencyList[i] == ',' || IsSpace(dependencyList[i])
    ensures ParseDependencies(dependencyList) == []
  {
    var s := dependencyList;
    if |s| > 0 {
      ParseBlank(s[1..]);
      var rest := Split(s[1..], ',');
      if s[0] != ',' {
        assert Keep(rest) == Kept(rest[0]) + Keep(rest[1..]);
        var piece := [s[0]] + rest[0];
        assert AllSpace(piece) by {
          assert forall i :: 1 <= i < |piece| ==> piece[i] == rest[0][i - 1];
        }
        assert Split(s, ',') == [piece] + rest[1..];
      }
    }
  }

  // ---------------------------------------------------------------------
  // The report
  // ---------------------------------------------------------------------

  function Query(dep: string): string
  {
    "security vulnerability and license for " + dep
  }

  function Section(dep: string, found: string): string
  {
    "Audit Results for **" + dep + "**:\n" + found
  }

  /** The query of each dependency, in order. */
  function Queries(deps: seq<string>): seq<string>
  {
    if |deps| == 0 then [] else Queries(deps[..|deps| - 1]) + [Query(deps[|deps| - 1])]
  }

  /**
   * The sections for `deps`, searching them in order; the first failed
   * search ends the run with its error.
   */
  function Sections<E>(deps: seq<string>, search: string -> Result<string, E>): Result<seq<string>, E>
  {
    if |deps| == 0 then Ok([])
    else match Sections(deps[..|deps| - 1], search)
      case Err(e) => Err(e)
      case Ok(done) =>
        match search(Query(deps[|deps| - 1]))
        case Err(e) => Err(e)
        case Ok(found) => Ok(done + [Section(deps[|deps| - 1], found)])
  }

  /** What `_run` returns, or the error it lets through. */
  function Audit<E>(dependencyList: string, search: string -> Result<string, E>): Result<string, E>
  {
    var deps := ParseDependencies(dependencyList);
    if |deps| == 0 then Ok(NoDependencies)
    else match Sections(deps, search)
      case Err(e) => Err(e)
      case Ok(sections) => Ok(ReportHeader + Join(sections, SectionSeparator))
  }

  /** One query per dependency, the `i`-th naming `deps[i]`. */
  lemma {:induction false} QueriesAt(deps: seq<string>)
    ensures |Queries(deps)| == |deps|
    ensures forall i :: 0 <= i < |deps| ==> Queries(deps)[i] == Query(deps[i])
  {
    if |deps| > 0 {
      var init := deps[..|deps| - 1];
      QueriesAt(init);
      assert forall i :: 0 <= i < |init| ==> init[i] == deps[i];
    }
  }

  /**
   * When every search succeeds there is one section per dependency, in
   * order, each holding that dependency's search text.
   */
  lemma {:induction false} SectionsAllFound<E>(deps: seq<string>, search: string -> Result<string, E>)
    requires forall i :: 0 <= i < |deps| ==> search(Query(deps[i])).Ok?
    ensures Sections(deps, search).Ok?
    ensures |Sections(deps, search).value| == |deps|
    ensures forall i :: 0 <= i < |deps| ==>
              Sections(deps, search).value[i] == Section(deps[i], search(Query(deps[i])).value)
  {
    if |deps| > 0 {
      var init := deps[..|deps| - 1];
      assert forall i :: 0 <= i < |init| ==> init[i] == deps[i];
      SectionsAllFound(init, search);
    }
  }

  /** The first dependency whose search fails decides the error; later ones are never searched. */
  lemma {:induction false} SectionsFirstFailure<E>(deps: seq<string>, search: string -> Result<string, E>, j: nat)
    requires j < |deps| && search(Query(deps[j])).Err?
    requires forall i :: 0 <= i < j ==> search(Query(deps[i])).Ok?
    ensures Sections(deps, search) == Err(search(Query(deps[j])).error)
    decreases |deps|
  {
    var init := deps[..|deps| - 1];
    if j < |deps| - 1 {
      assert init[j] == deps[j];
      assert forall i :: 0 <= i < j ==> init[i] == deps[i];
      SectionsFirstFailure(init, search, j);
    } else {
      assert forall i :: 0 <= i < |init| ==> init[i] == deps[i];
      SectionsAllFound(init, search);
    }
  }

  /** The fixed message comes back exactly when no dependency survives parsing. */
  lemma NoDependenciesIff<E>(dependencyList: string, search: string -> Result<string, E>)
    ensures Audit(dependencyList, search) == Ok(NoDependencies) <==> ParseDependencies(dependencyList) == []
  {
    var r := Audit(dependencyList, search);
    if ParseDependencies(dependencyList) != [] && r.Ok? {
      assert r.value[0] == '-';
      assert NoDependencies[0] == 'N';
    }
  }

  lemma QueriesStep(deps: seq<string>, i: nat)
    requires i < |deps|
    ensures Queries(deps[..i + 1]) == Queries(deps[..i]) + [Query(deps[i])]
  {
    assert deps[..i + 1][..i] == deps[..i];
  }

  lemma SectionsStep<E>(deps: seq<string>, search: string -> Result<string, E>, i: nat)
    requires i < |deps| && Sections(deps[..i], search).Ok? && search(Query(deps[i])).Ok?
    ensures Sections(deps[..i + 1], search)
            == Ok(Sections(deps[..i], search).value + [Section(deps[i], search(Query(deps[i])).value)])
  {
    assert deps[..i + 1][..i] == deps[..i];
  }

  /** A run stopped by the search of `deps[i]` made exactly the first `i + 1` queries. */
  lemma StoppedAt<E>(deps: seq<string>, search: string -> Result<string, E>, i: nat)
    requires i < |deps| && search(Query(deps[i])).Err?
    requires forall k :: 0 <= k < i ==> search(Query(deps[k])).Ok?
    ensures Sections(deps, search) == Err(search(Query(deps[i])).error)
    ensures var queries := Queries(deps[..i + 1]);
            && |queries| == i + 1
            && search(queries[i]) == Err(search(Query(deps[i])).error)
            && forall k :: 0 <= k < i ==> search(queries[k]).Ok?
  {
    SectionsFirstFailure(deps, search, i);
    QueriesAt(deps[..i + 1]);
  }

  /**
   * `_run`: parse, then one search per dependency in order, each result
   * wrapped in its section; `queries` lists the searches made.
   */
  method AuditDependencies<E>(dependencyList: string, search: string -> Result<string, E>)
    returns (report: Result<string, E>, queries: seq<string>)
    ensures report == Audit(dependencyList, search)
    ensures var deps := ParseDependencies(dependencyList);
            && |queries| <= |deps|
            && queries == Queries(deps[..|queries|])
            && (report.Ok? ==> |queries| == |deps|)
            && (report.Err? ==> |queries| >= 1 && search(queries[|queries| - 1]) == Err(report.error))
            && (forall i :: 0 <= i < |queries| - 1 ==> search(queries[i]).Ok?)
  {
    var dependencies := Keep(Split(dependencyList, ','));
    queries := [];
    if |dependencies| == 0 {
      return Ok(NoDependencies), queries;
    }
    var results: seq<string> := [];
    for i := 0 to |dependencies|
      invariant queries == Queries(dependencies[..i])
      invariant Sections(dependencies[..i], search) == Ok(results)
      invariant forall k :: 0 <= k < i ==> search(Query(dependencies[k])).Ok?
    {
      var dep := dependencies[i];
      var focusedQuery := "security vulnerability and license for " + dep;
      QueriesStep(dependencies, i);
      queries := queries + [focusedQuery];
      var searchResults := search(focusedQuery);
      if searchResults.Err? {
        report := Err(searchResults.error);
        StoppedAt(dependencies, search, i);
        return;
      }
      SectionsStep(dependencies, search, i);
      results := results + ["Audit Results for **" + dep + "**:\n" + searchResults.value];
    }
    assert dependencies[..|dependencies|] == dependencies;
    QueriesAt(dependencies);
    report := Ok(ReportHeader + Join(results, SectionSeparator));
  }
}
