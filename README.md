# Agentic code-development workshop: fallback planner, retry loop and search tools

This Dafny project models the parts of the AgenticAI_Workshop application that have real logic of their own:

- **The LLM fallback planner** (`_build_llm_attempts` in `crew.py`). It turns an OpenRouter configuration into an ordered list of sparse override maps. It:
  - de-duplicates the primary-plus-fallback models and base URLs, keeping first occurrences;
  - walks provider (`openrouter`, then `openai`), then model, then base URL;
  - skips keys it has seen;
  - fills each override by fixed field rules.
- **The redactor** `_sanitize_overrides`. It replaces header and API-key values with `"[set]"` before logging.
- **The retry loop** of `run_code_development_pipeline`. It tries the attempts in order, returns the first success, re-raises the last failure when all fail, and logs along the way.
- **The DuckDuckGo search tool** (`tools/web_search.py`):
  - `max_results` validation;
  - backend selection;
  - error wrapping;
  - the text rendering of result records.
- **The dependency audit tool** (`tools/dependency_audit_tool.py`):
  - comma-list parsing;
  - one search per dependency;
  - the report layout.

Modules:

- `Wrappers`: `Option` and `Result`. Exceptions become `Err` values.
- `Text`: Python's `str.isspace`, `str.strip()`, `str.split(',')`, `sep.join` and `str(n)`, with their round-trip lemmas.
- `Crew` (`crew.py`):
  - The imperative builder `BuildLlmAttempts` is a method with the source's three nested loops and its `seen` set. The innermost loop lives in `VisitBaseUrls` and the override construction in `NewOverride`.
  - The builder is proved equal to the specification function `Plan`. Properties are proved about `Plan`.
  - `SanitizeOverrides` is a loop proved equal to `Sanitized`.
  - The retry loop `RunWithFallback` is proved equal to the reference function `Retry` and to the log trace `RunLog`.
- `WebSearch`: the search tool.
- `DependencyAudit`: the audit tool.

The crew run (`_execute_crew`) is the function parameter `runOnce(topic, override)`. It returns `Ok(text)` or `Err(error)`. The search service is a function parameter too.

Two consequences of the planner's code, proved in the model:

- A configuration with no fallbacks and no headers gives two attempts: `{}`, then the same model through the `openai` convention (`Crew.PrimaryOnlyExample`). The `openai` family is always walked.
- Models `[m1, m2, m1]` with URLs `[u1, u1, u2]` give eight attempts (`Crew.RepeatedFallbacksExample`, `Crew.PlanLayout`). Both lists are de-duplicated before the walk, and the provider is part of the `seen` key, so every one of the 2 × 2 × 2 combinations is distinct. In general, the `seen` test and the empty-list guard never change the result (`Crew.SeenNeverSkips`, `Crew.PlanIsWalk`).

## Model

| member | source | states |
|---|---|---|
| Crew.Dedup | crew.py:82-83 | `list(dict.fromkeys(xs))`: walk the list and keep each element the first time it is met; its properties are the lemmas in the next rows |
| Crew.DedupFacts | crew.py:82-83 | `list(dict.fromkeys(xs))` has no repeated element, has exactly the elements of `xs`, and is no longer than `xs` |
| Crew.DedupKeepsFirstOccurrenceOrder | crew.py:82-83 | the kept elements appear in the order of their first occurrences in the input |
| Crew.DedupHead | crew.py:79-83 | the primary value (the list's head) is always kept, in first place |
| Crew.DedupOfDistinct | crew.py:88-91 | on a walk without repeats, skipping already-seen keys skips nothing |
| Crew.NewOverride | crew.py:93-106 | the override built for one `(provider, model, base_url)` is the one the field rules define for that key |
| Crew.VisitBaseUrls | crew.py:87-108 | the innermost loop extends the walk by one key per base URL, keeps `seen` equal to the set of keys walked, and appends exactly the overrides of the keys not yet seen |
| Crew.BuildLlmAttempts | crew.py:73-113 | the builder's three nested loops, `seen` filter and empty-list guard produce exactly the planned attempt list |
| Crew.TraversalHalves | crew.py:85-87 | the walk is the whole `openrouter` block followed by the whole `openai` block, each over the de-duplicated models (outer) and base URLs (inner) |
| Crew.BlockAt | crew.py:86-87 | within a provider, model `i`'s row of base URLs sits between the rows of the models before and after it |
| Crew.RowAt | crew.py:87-88 | the innermost loop visits the base URLs in list order, one key each |
| Crew.BlockSize | crew.py:86-87 | one provider contributes `|models| × |urls|` keys |
| Crew.SeenNeverSkips | crew.py:88-91 | once the lists are de-duplicated, no `(provider, model, base_url)` key repeats, so the `seen` test never fires |
| Crew.PlanIsWalk | crew.py:88-111 | the attempts are the overrides of the full walk: neither the `seen` skip nor the empty-list guard changes anything |
| Crew.PlanLayout | crew.py:79-111 | there are exactly `2 × |distinct models| × |distinct urls|` attempts, at least 2, all `openrouter` ones before all `openai` ones |
| Crew.PlanStartsWithPrimary | crew.py:93-100 | the list is never empty and its first attempt is `{}` (primary provider, model and URL) |
| Crew.OnlyFirstAttemptIsEmpty | crew.py:93-106 | every attempt after the first has at least one key, so the "attempt starting" record is logged for all attempts but the first |
| Crew.ProvidersInOrder | crew.py:85 | every walked key is of family `openrouter` or `openai`, and once an `openai` key appears, all later keys are `openai` |
| Crew.AttemptsFollowFieldRules | crew.py:95-106 | each attempt follows the field rules: `base_url` iff it differs from the primary URL; an `openrouter` attempt has no `provider` or headers, and has `model` iff it differs from the primary; an `openai` attempt has `provider = "openai"`, an explicit `model`, and both header maps (equal to the config's headers) iff the config has headers |
| Crew.MakeOverrideFollowsRules | crew.py:95-106 | the field rules hold for the override of any key of either family |
| Crew.OpenAIAttemptsComeLast | crew.py:85-102 | an attempt with a `provider` key is followed only by attempts with one |
| Crew.Resolve | crew.py:131-133 | the labels `_execute_crew` reads back: `provider`, `model` and `base_url` from the override when present, else `"openrouter-liteLLM"`, the config's model and the config's base URL |
| Crew.ResolveMakeOverride | crew.py:131-133 | an override read back through `get("provider", "openrouter-liteLLM")`, `get("model", config.model)` and `get("base_url", config.base_url)` gives the key's model and base URL, and its provider label: `"openrouter-liteLLM"` for an `openrouter` key, `"openai"` for an `openai` key |
| Crew.AttemptsDistinct | crew.py:88-106 | no two attempts run the same provider, model and base URL, so no two overrides are equal |
| Crew.PrimaryOnlyExample | crew.py:73-113 | a config with no fallbacks and no headers gives `[{}, {provider: openai, model: m1}]` |
| Crew.RepeatedFallbacksExample | crew.py:79-108 | models `[m1, m2, m1]` with URLs `[u1, u1, u2]` give 8 attempts |
| Crew.SanitizeOverrides | crew.py:116-123 | the copy-and-overwrite loop yields the redacted copy of its argument; the argument is a value and is left as it was |
| Crew.SanitizeRedacts | crew.py:116-123 | the redacted copy has the same keys, `extra_headers`, `default_headers` and `api_key` (when present) become `"[set]"`, all other values are unchanged |
| Crew.SanitizeIdempotent | crew.py:116-123 | redacting twice equals redacting once |
| Crew.RunWithFallback | crew.py:170-201 | the loop tries a prefix of the attempts in order: it returns the first success, raises the last attempt's error when all fail, fails its assertion exactly when the list is empty, and writes exactly the planned log records |
| Crew.RetryFirstSuccess | crew.py:182-190 | if attempt `K` is the first to succeed, its output is returned |
| Crew.RetryExhausted | crew.py:191-201 | if every attempt fails, the error of the last one is raised, not the first |
| Crew.RunLogRedacted | crew.py:175-198 | every override shown in a log record has `"[set]"` under each sensitive key present; the failure record's exception is logged as raised |
| Crew.RunLogCounts | crew.py:175-198 | a run ending on attempt `K` logs one failure record per failed attempt (`K - 1` on success, `K` on exhaustion), and one "fallback succeeded" record exactly when it succeeded on an attempt after the first |
| Crew.FailedPrefixCounts | crew.py:191-198 | `n` failed attempts leave `n` failure records and no fallback-success record |
| Crew.RunCodeDevelopmentPipeline | crew.py:164-201 | the pipeline runs the planned attempts; its defensive assertion never fails; the first attempt tried is `{}`; an exhausted run has tried every one of the `2 × |models| × |urls|` attempts |
| Text.Strip | tools/web_search.py:44 | `str.strip()` leaves no whitespace at either end and gives `""` exactly for all-whitespace input |
| Text.StripSlice | tools/dependency_audit_tool.py:35 | the stripped text is a slice of the input with only whitespace before and after it |
| Text.StripStripped | tools/dependency_audit_tool.py:35 | stripping text with no outer whitespace changes nothing |
| Text.Split | tools/dependency_audit_tool.py:35 | `split(',')` gives at least one piece and no piece contains a comma |
| Text.JoinSplit | tools/dependency_audit_tool.py:35 | joining the pieces with the separator gives the input back |
| Text.SplitJoin | tools/dependency_audit_tool.py:35 | splitting a join of separator-free pieces gives the pieces back |
| Text.SplitAppend | tools/dependency_audit_tool.py:35 | splitting at a separator splits each side separately |
| Text.JoinSnoc | tools/web_search.py:47 | joining one more piece appends the separator and the piece |
| Text.NatToString | tools/web_search.py:44 | `str(index)` is a non-empty run of digits with no leading zero |
| Text.NatToStringValue | tools/web_search.py:44 | the digits read back as the number |
| WebSearch.CreateWebSearchTool | tools/web_search.py:66-72 | a tool is made exactly when `max_results >= 1` (the field's bound), with that limit and the `text` backend; otherwise the value is rejected |
| WebSearch.DefaultToolIsValid | tools/web_search.py:19-23 | the default tool returns up to 5 hits with the `text` backend |
| WebSearch.SelectBackend | tools/web_search.py:54-59 | `"news"` selects news, `"images"` selects images, any other name selects text search |
| WebSearch.Search | tools/web_search.py:51-63 | the service is called with the selected backend and the tool's limit; its results pass through unchanged; a failure becomes an error whose message is `"DuckDuckGo search failed: "` followed by the service's message |
| WebSearch.Title | tools/web_search.py:35 | the first non-empty of `title` and `heading`, else `"Untitled result"` |
| WebSearch.Url | tools/web_search.py:36 | the first non-empty of `href` and `url`, else `""` |
| WebSearch.Summary | tools/web_search.py:37-44 | the first non-empty of `body`, `snippet` and `description`, else `"No summary provided."`, stripped after it is chosen |
| WebSearch.FirstNonEmptyPicksFirst | tools/web_search.py:35-42 | an `a or b or default` chain yields the first non-empty field (missing and `""` both fall through), or the default |
| WebSearch.FirstNonEmptyFrom | tools/web_search.py:35-42 | the chain's value is the default or a non-empty field value |
| WebSearch.FieldShapes | tools/web_search.py:35-44 | a title is never empty, and a summary has no whitespace at either end |
| WebSearch.WhitespaceBodyGivesEmptySummary | tools/web_search.py:37-44 | a whitespace-only `body` is chosen and then stripped to `""`, even when `snippet` has text |
| WebSearch.Entry | tools/web_search.py:43-45 | entry `index` is `"Result "`, the decimal digits of `index`, `": "`, the title, `"\nURL: "`, the URL, `"\nSummary: "` and the stripped summary |
| WebSearch.NumberedAt | tools/web_search.py:34 | `enumerate(..., start=1)` yields one item per input, the `i`-th numbered `i + 1` |
| WebSearch.EntriesAt | tools/web_search.py:33-45 | there is one entry per result, in input order, the `i`-th rendered from result `i` under number `i + 1` |
| WebSearch.EntryNumber | tools/web_search.py:43-45 | entry `i` starts with `"Result "` and the digits of `i`, which read back as `i` |
| WebSearch.FormatSingle | tools/web_search.py:43-47 | a single result is rendered as its entry alone |
| WebSearch.FormatSnoc | tools/web_search.py:43-47 | a further result appends `"\n\n"` and its own entry and leaves the earlier text unchanged |
| WebSearch.FormatEmptyIff | tools/web_search.py:29-31 | the "No DuckDuckGo results" message is returned exactly when there are no results |
| WebSearch.FormatResults | tools/web_search.py:30-49 | the formatting loop produces the fixed message for no results, else the numbered entries joined by `"\n\n"` |
| WebSearch.Run | tools/web_search.py:27-49 | `_run` returns the rendered results of a successful search and propagates a failed search's error |
| DependencyAudit.AuditSearchToolIsValid | tools/dependency_audit_tool.py:29-31 | the audit's own search tool is a valid tool limited to 3 hits |
| DependencyAudit.Kept | tools/dependency_audit_tool.py:35 | one comma-separated piece contributes its stripped text, or nothing when it strips to `""` |
| DependencyAudit.Keep | tools/dependency_audit_tool.py:35 | the pieces' contributions, in order |
| DependencyAudit.ParseDependencies | tools/dependency_audit_tool.py:35 | the list comprehension over `split(',')` that keeps the stripped non-empty pieces; its properties are the lemmas in the next rows |
| DependencyAudit.ParsedAreClean | tools/dependency_audit_tool.py:35 | every parsed dependency is non-empty, comma-free and has no outer whitespace |
| DependencyAudit.ParseAppend | tools/dependency_audit_tool.py:35 | the parts on either side of a comma parse separately, in order |
| DependencyAudit.ParseJoin | tools/dependency_audit_tool.py:35 | clean dependencies joined with `","` parse back to themselves |
| DependencyAudit.ParseBlank | tools/dependency_audit_tool.py:35 | a list of only commas and whitespace names no dependency |
| DependencyAudit.QueriesAt | tools/dependency_audit_tool.py:41-42 | one query per dependency, in order, each `"security vulnerability and license for " + dep` |
| DependencyAudit.SectionsAllFound | tools/dependency_audit_tool.py:41-48 | when every search succeeds, there is one section per dependency, in order, each `"Audit Results for **dep**:\n" + result` |
| DependencyAudit.SectionsFirstFailure | tools/dependency_audit_tool.py:41-47 | the first failing search decides the error |
| DependencyAudit.StoppedAt | tools/dependency_audit_tool.py:41-47 | a run stopped by dependency `i` made exactly the first `i + 1` queries, all successful but the last |
| DependencyAudit.NoDependenciesIff | tools/dependency_audit_tool.py:37-50 | "No dependencies provided for audit." is returned exactly when nothing survives parsing |
| DependencyAudit.AuditDependencies | tools/dependency_audit_tool.py:33-50 | `_run` returns the message when nothing is parsed, without searching. Otherwise it searches each dependency in order, stops at the first failed search and propagates its error, and on success returns the header and the sections joined by `"\n\n"` |

## Left out

- `_execute_crew` (crew construction, `crew.kickoff`, per-task output logging, normalising the kickoff result to text) is the function parameter `runOnce`. Its read-back of the provider, model and base URL labels is modelled as `Crew.Resolve`.
- `create_code_development_crew`, the agents, tasks, Streamlit front end and `main.py` are framework wiring and prompt text; they are not part of this model.
- `OpenRouterLLMConfig` loading from the environment is not modelled; the configuration is the plain record `Crew.LlmConfig`.
- Logging is modelled as a trace of `Crew.LogEvent` records (index, total, redacted override, error); the logger's text and levels are not. The query log, the raw-results debug log and the failure log (`self._logger.exception`, tools/web_search.py:62) of the search tool, and the audit tool's per-dependency log, are left out.
- Crew.RunWithFallback / WebSearch.Search: only `Exception` is caught (crew.py:191, tools/web_search.py:61). A `BaseException` that is not an `Exception` (`KeyboardInterrupt`, `SystemExit`, `asyncio.CancelledError`) raised by the crew run or the search service propagates at once: no failure record is logged, no later attempt is made, the saved error is not raised, and the search error is not wrapped. The model treats every failure as an ordinary one.
- Crew.RunLogRedacted: the error carried by an `AttemptFailed` record is not constrained. `logger.exception` (crew.py:193-198) writes the exception's message and traceback as raised, and they may contain any text, sensitive values included.
- An exception raised by the logging calls inside the retry loop's `try` block is not modelled; only `runOnce` fails.
- The DDGS client (its context manager and network calls) is the function parameter `service(backend, query, maxResults)`. Whether the service honours `max_results` is not modelled. Being a function, the service gives identical answers to identical queries, so the two searches of a list such as `"numpy, numpy"` agree, which two live searches need not; the crew run `runOnce` is likewise a function of the topic and the override.
- Python values typed `Any` are narrowed. An override value is a string or a header map (`Crew.Value`). A search record maps strings to strings (`WebSearch.Record`), so non-string field values and their truthiness are not modelled.
- WebSearch.CreateWebSearchTool: pydantic's validation error and its type coercions (such as the string `"5"` accepted for an integer) are reduced to `InvalidMaxResults(given)`.
- The tool names and descriptions, and `create_dependency_audit_tool`, are constants or one-line wiring and are left out.
- Strings are sequences of Unicode scalar values. `str.strip()` removes the characters Python's `str.isspace` accepts (`Text.IsSpace`).
