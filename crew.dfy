/**
 * crew.py: the LLM fallback planner (`_build_llm_attempts`), the log
 * redactor (`_sanitize_overrides`) and the retry loop of
 * `run_code_development_pipeline`, with one crew run (`_execute_crew`)
 * abstracted as a function `runOnce(topic, overrides)`.
 */
module Crew {
  import opened Wrappers

  // ---------------------------------------------------------------------
  // Data
  // ---------------------------------------------------------------------

  /** A value in an override map: a string, or a copy of the header map. */
  datatype Value = Str(s: string) | Headers(h: map<string, string>)

  /** A sparse set of LLM settings that differ from the primary ones; `map[]` means "primary". */
  type Override = map<string, Value>

  /** The fields of `OpenRouterLLMConfig` that the planner reads. */
  datatype LlmConfig = LlmConfig(
    model: string,
    fallbackModels: seq<string>,
    baseUrl: string,
    fallbackBaseUrls: seq<string>,
    headers: map<string, string>)

  /** The `(provider, model, base_url)` triple the planner keeps in `seen`. */
  datatype Key = Key(provider: string, model: string, baseUrl: string)

  const OpenRouter: string := "openrouter"
  const OpenAI: string := "openai"

  /** The provider families, in the order the planner tries them. */
  const ProviderOrder: seq<string> := [OpenRouter, OpenAI]

  // ---------------------------------------------------------------------
  // Order-preserving de-duplication (`list(dict.fromkeys(xs))`)
  // ---------------------------------------------------------------------

  predicate NoDuplicates<T(==)>(s: seq<T>)
  {
    forall i, j :: 0 <= i < j < |s| ==> s[i] != s[j]
  }

  /**
   * `list(dict.fromkeys(s))`: walk `s` and keep each element the first
   * time it is met. The result has no duplicates and the same elements.
   */
  function Dedup<T(==)>(s: seq<T>): seq<T>
  {
    if |s| == 0 then []
    else
      var prefix := Dedup(s[..|s| - 1]);
      var x := s[|s| - 1];
      if x in prefix then prefix else prefix + [x]
  }

  /** The kept elements are exactly the elements of `s`, each once. */
  lemma {:induction false} DedupFacts<T>(s: seq<T>)
    ensures NoDuplicates(Dedup(s))
    ensures forall x :: x in Dedup(s) ==> x in s
    ensures forall x :: x in s ==> x in Dedup(s)
    ensures |Dedup(s)| <= |s|
  {
    if |s| > 0 {
      var p := s[..|s| - 1];
      DedupFacts(p);
      assert s == p + [s[|s| - 1]];
    }
  }

  /** Appending one element to the walk: it is kept iff it is new. */
  lemma DedupSnoc<T>(s: seq<T>, x: T)
    ensures Dedup(s + [x]) == if x in s then Dedup(s) else Dedup(s) + [x]
  {
    DedupFacts(s);
    assert (s + [x])[..|s|] == s;
  }

  /** The position of the first occurrence of `x` in `s`. */
  function IndexOf<T(==)>(s: seq<T>, x: T): (i: nat)
    requires x in s
    ensures i < |s| && s[i] == x
    ensures forall k :: 0 <= k < i ==> s[k] != x
  {
    if s[0] == x then 0 else 1 + IndexOf(s[1..], x)
  }

  lemma IndexOfPrefix<T>(s: seq<T>, t: seq<T>, x: T)
    requires x in s
    ensures x in s + t && IndexOf(s + t, x) == IndexOf(s, x)
  {
    assert (s + t)[IndexOf(s, x)] == x;
  }

  /**
   * The first occurrence wins: the kept elements appear in the order of
   * their first occurrences in `s`.
   */
  lemma {:induction false} DedupKeepsFirstOccurrenceOrder<T>(s: seq<T>)
    ensures forall i, j :: 0 <= i < j < |Dedup(s)| ==>
              Dedup(s)[i] in s && Dedup(s)[j] in s &&
              IndexOf(s, Dedup(s)[i]) < IndexOf(s, Dedup(s)[j])
  {
    DedupFacts(s);
    if |s| > 0 {
      var p := s[..|s| - 1];
      var x := s[|s| - 1];
      assert s == p + [x];
      DedupKeepsFirstOccurrenceOrder(p);
      DedupSnoc(p, x);
      DedupFacts(p);
      var r := Dedup(s);
      var rp := Dedup(p);
      forall i, j | 0 <= i < j < |r|
        ensures r[i] in s && r[j] in s && IndexOf(s, r[i]) < IndexOf(s, r[j])
      {
        assert i < |rp| && r[i] == rp[i] && rp[i] in rp;
        IndexOfPrefix(p, [x], rp[i]);
        if j < |rp| {
          assert r[j] == rp[j] && rp[j] in rp;
          IndexOfPrefix(p, [x], rp[j]);
        } else {
          assert r[j] == x && x !in p;
        }
      }
    }
  }

  /** The first element of a non-empty walk is always kept, first. */
  lemma {:induction false} DedupHead<T>(s: seq<T>)
    requires |s| > 0
    ensures |Dedup(s)| > 0 && Dedup(s)[0] == s[0]
  {
    if |s| > 1 {
      var p := s[..|s| - 1];
      DedupHead(p);
      assert p[0] == s[0];
    }
  }

  /** On a walk without repeats the `seen` test never skips anything. */
  lemma {:induction false} DedupOfDistinct<T>(s: seq<T>)
    requires NoDuplicates(s)
    ensures Dedup(s) == s
  {
    if |s| > 0 {
      var p := s[..|s| - 1];
      DedupOfDistinct(p);
      assert s[|s| - 1] !in p;
      assert p + [s[|s| - 1]] == s;
    }
  }

  // ---------------------------------------------------------------------
  // The planner's specification
  // ---------------------------------------------------------------------

  /** Model candidates: the primary model, then the fallbacks, first occurrence kept. */
  function CandidateModels(cfg: LlmConfig): seq<string>
  {
    Dedup([cfg.model] + cfg.fallbackModels)
  }

  /** Base-URL candidates: the primary URL, then the fallbacks, first occurrence kept. */
  function CandidateUrls(cfg: LlmConfig): seq<string>
  {
    Dedup([cfg.baseUrl] + cfg.fallbackBaseUrls)
  }

  /** The innermost loop: one model against every base URL, in order. */
  function Row(provider: string, model: string, urls: seq<string>): seq<Key>
  {
    if |urls| == 0 then []
    else Row(provider, model, urls[..|urls| - 1]) + [Key(provider, model, urls[|urls| - 1])]
  }

  /** The middle loop: every model (outer) against every base URL (inner). */
  function Block(provider: string, models: seq<string>, urls: seq<string>): seq<Key>
  {
    if |models| == 0 then []
    else Block(provider, models[..|models| - 1], urls) + Row(provider, models[|models| - 1], urls)
  }

  /** The outer loop: every provider family in turn. */
  function Grid(providers: seq<string>, models: seq<string>, urls: seq<string>): seq<Key>
  {
    if |providers| == 0 then []
    else Grid(providers[..|providers| - 1], models, urls) + Block(providers[|providers| - 1], models, urls)
  }

  /** Every key the nested loops visit, in visiting order. */
  function Traversal(cfg: LlmConfig): seq<Key>
  {
    Grid(ProviderOrder, CandidateModels(cfg), CandidateUrls(cfg))
  }

  /** The override built for one key (the loop body after the `seen` test). */
  function MakeOverride(cfg: LlmConfig, k: Key): Override
  {
    var empty: Override := map[];
    var withUrl := if k.baseUrl != cfg.baseUrl then empty["base_url" := Str(k.baseUrl)] else empty;
    if k.provider == OpenRouter then
      if k.model != cfg.model then withUrl["model" := Str(k.model)] else withUrl
    else
      var explicit := withUrl["provider" := Str(OpenAI)]["model" := Str(k.model)];
      if |cfg.headers| > 0 then
        explicit["default_headers" := Headers(cfg.headers)]["extra_headers" := Headers(cfg.headers)]
      else explicit
  }

  function Overrides(cfg: LlmConfig, keys: seq<Key>): seq<Override>
  {
    if |keys| == 0 then []
    else Overrides(cfg, keys[..|keys| - 1]) + [MakeOverride(cfg, keys[|keys| - 1])]
  }

  /**
   * What `_build_llm_attempts` returns: the visited keys with repeats
   * skipped (the `seen` set), each turned into its override, and a lone
   * `{}` if nothing was kept.
   */
  function Plan(cfg: LlmConfig): seq<Override>
  {
    var kept := Dedup(Traversal(cfg));
    if |kept| == 0 then [map[]] else Overrides(cfg, kept)
  }

  lemma RowSnoc(provider: string, model: string, urls: seq<string>, u: nat)
    requires u < |urls|
    ensures Row(provider, model, urls[..u + 1]) == Row(provider, model, urls[..u]) + [Key(provider, model, urls[u])]
  {
    assert urls[..u + 1][..u] == urls[..u];
  }

  lemma BlockSnoc(provider: string, models: seq<string>, urls: seq<string>, m: nat)
    requires m < |models|
    ensures Block(provider, models[..m + 1], urls) == Block(provider, models[..m], urls) + Row(provider, models[m], urls)
  {
    assert models[..m + 1][..m] == models[..m];
  }

  lemma GridSnoc(providers: seq<string>, models: seq<string>, urls: seq<string>, p: nat)
    requires p < |providers|
    ensures Grid(providers[..p + 1], models, urls) == Grid(providers[..p], models, urls) + Block(providers[p], models, urls)
  {
    assert providers[..p + 1][..p] == providers[..p];
  }

  lemma AppendAssoc<T>(a: seq<T>, b: seq<T>, c: seq<T>)
    ensures (a + b) + c == a + (b + c)
  {
  }

  /** One step of the innermost loop extends the walk by one key. */
  lemma WalkStep(before: seq<Key>, walked: seq<Key>, provider: string, model: string, urls: seq<string>, u: nat)
    requires u < |urls|
    requires walked == before + Row(provider, model, urls[..u])
    ensures walked + [Key(provider, model, urls[u])] == before + Row(provider, model, urls[..u + 1])
    ensures Dedup(walked + [Key(provider, model, urls[u])])
            == if Key(provider, model, urls[u]) in walked then Dedup(walked)
               else Dedup(walked) + [Key(provider, model, urls[u])]
  {
    var key := Key(provider, model, urls[u]);
    DedupSnoc(walked, key);
    DedupFacts(walked);
    RowSnoc(provider, model, urls, u);
    AppendAssoc(before, Row(provider, model, urls[..u]), [key]);
  }

  lemma OverridesSnoc(cfg: LlmConfig, keys: seq<Key>, k: Key)
    ensures Overrides(cfg, keys + [k]) == Overrides(cfg, keys) + [MakeOverride(cfg, k)]
  {
    assert (keys + [k])[..|keys|] == keys;
  }

  // ---------------------------------------------------------------------
  // The planner as the source writes it
  // ---------------------------------------------------------------------

  /** The loop body of `_build_llm_attempts` that fills one override, field by field. */
  method NewOverride(cfg: LlmConfig, provider: string, model: string, baseUrl: string) returns (override: Override)
    ensures override == MakeOverride(cfg, Key(provider, model, baseUrl))
  {
    override := map[];
    if baseUrl != cfg.baseUrl {
      override := override["base_url" := Str(baseUrl)];
    }
    if provider == OpenRouter {
      if model != cfg.model {
        override := override["model" := Str(model)];
      }
    } else {
      override := override["provider" := Str(OpenAI)];
      override := override["model" := Str(model)];
      if |cfg.headers| > 0 {
        override := override["default_headers" := Headers(cfg.headers)];
        override := override["extra_headers" := Headers(cfg.headers)];
      }
    }
  }

  /**
   * The loop state of `_build_llm_attempts` after visiting the keys in
   * `walked`: `seen` holds exactly the visited keys, `kept` the visited
   * keys without repeats, and `attempts` one override per kept key.
   */
  ghost predicate Consistent(cfg: LlmConfig, walked: seq<Key>, kept: seq<Key>, seen: set<Key>, attempts: seq<Override>)
  {
    && kept == Dedup(walked)
    && (forall k :: k in seen <==> k in walked)
    && attempts == Overrides(cfg, kept)
  }

  /**
   * The innermost loop of `_build_llm_attempts`: one provider and one
   * model against every base URL, skipping keys already in `seen`.
   */
  method VisitBaseUrls(cfg: LlmConfig, provider: string, model: string, baseUrls: seq<string>,
                       attempts0: seq<Override>, seen0: set<Key>, ghost walked0: seq<Key>, ghost kept0: seq<Key>)
    returns (attempts: seq<Override>, seen: set<Key>, ghost walked: seq<Key>, ghost kept: seq<Key>)
    requires Consistent(cfg, walked0, kept0, seen0, attempts0)
    ensures walked == walked0 + Row(provider, model, baseUrls)
    ensures Consistent(cfg, walked, kept, seen, attempts)
  {
    attempts, seen, walked, kept := attempts0, seen0, walked0, kept0;
    for u := 0 to |baseUrls|
      invariant walked == walked0 + Row(provider, model, baseUrls[..u])
      invariant Consistent(cfg, walked, kept, seen, attempts)
    {
      var baseUrl := baseUrls[u];
      var key := Key(provider, model, baseUrl);
      ghost var previous := walked;
      walked := walked + [key];
      WalkStep(walked0, previous, provider, model, baseUrls, u);
      if key in seen {
        continue;
      }
      seen := seen + {key};
      var override := NewOverride(cfg, provider, model, baseUrl);
      OverridesSnoc(cfg, kept, key);
      attempts := attempts + [override];
      kept := kept + [key];
    }
    assert baseUrls[..|baseUrls|] == baseUrls;
  }

  /**
   * `_build_llm_attempts`: nested loops over provider, model and base
   * URL (the innermost in `VisitBaseUrls`), a `seen` set of keys, and
   * `[{}]` if nothing was kept.
   */
  method BuildLlmAttempts(cfg: LlmConfig) returns (attempts: seq<Override>)
    ensures attempts == Plan(cfg)
  {
    attempts := [];
    var seen: set<Key> := {};
    var baseUrls := Dedup([cfg.baseUrl] + cfg.fallbackBaseUrls);
    var models := Dedup([cfg.model] + cfg.fallbackModels);
    ghost var walked: seq<Key> := [];
    ghost var kept: seq<Key> := [];
    for p := 0 to |ProviderOrder|
      invariant walked == Grid(ProviderOrder[..p], models, baseUrls)
      invariant Consistent(cfg, walked, kept, seen, attempts)
    {
      var provider := ProviderOrder[p];
      ghost var earlier := walked;
      for m := 0 to |models|
        invariant walked == earlier + Block(provider, models[..m], baseUrls)
        invariant Consistent(cfg, walked, kept, seen, attempts)
      {
        ghost var before := walked;
        attempts, seen, walked, kept := VisitBaseUrls(cfg, provider, models[m], baseUrls, attempts, seen, walked, kept);
        BlockSnoc(provider, models, baseUrls, m);
        AppendAssoc(earlier, Block(provider, models[..m], baseUrls), Row(provider, models[m], baseUrls));
      }
      assert models[..|models|] == models;
      GridSnoc(ProviderOrder, models, baseUrls, p);
    }
    assert ProviderOrder[..|ProviderOrder|] == ProviderOrder;
    if |attempts| == 0 {
      attempts := attempts + [map[]];
    }
  }

  // ---------------------------------------------------------------------
  // What the planner promises
  // ---------------------------------------------------------------------

  lemma {:induction false} RowAt(provider: string, model: string, urls: seq<string>)
    ensures |Row(provider, model, urls)| == |urls|
    ensures forall j :: 0 <= j < |urls| ==> Row(provider, model, urls)[j] == Key(provider, model, urls[j])
  {
    if |urls| > 0 {
      RowAt(provider, model, urls[..|urls| - 1]);
    }
  }

  lemma {:induction false} BlockAppend(provider: string, a: seq<string>, b: seq<string>, urls: seq<string>)
    ensures Block(provider, a + b, urls) == Block(provider, a, urls) + Block(provider, b, urls)
  {
    if |b| == 0 {
      assert a + b == a;
    } else {
      var front := b[..|b| - 1];
      BlockAppend(provider, a, front, urls);
      assert (a + b)[..|a + b| - 1] == a + front;
      assert (a + b)[|a + b| - 1] == b[|b| - 1];
      AppendAssoc(Block(provider, a, urls), Block(provider, front, urls), Row(provider, b[|b| - 1], urls));
    }
  }

  /** A block visits `|models| * |urls|` keys. */
  lemma {:induction false} BlockSize(provider: string, models: seq<string>, urls: seq<string>)
    ensures |Block(provider, models, urls)| == |models| * |urls|
  {
    if |models| > 0 {
      BlockSize(provider, models[..|models| - 1], urls);
      RowAt(provider, models[|models| - 1], urls);
      MulSucc(|models| - 1, |urls|);
    }
  }

  lemma MulSucc(a: nat, b: nat)
    ensures (a + 1) * b == a * b + b
  {
  }

  /**
   * Model is the outer loop and base URL the inner one: the keys of model
   * `i` come after those of every earlier model, before those of every
   * later one, and run through the URLs in order.
   */
  lemma BlockAt(provider: string, models: seq<string>, urls: seq<string>, i: nat)
    requires i < |models|
    ensures Block(provider, models, urls)
            == Block(provider, models[..i], urls) + Row(provider, models[i], urls) + Block(provider, models[i + 1..], urls)
  {
    assert models == models[..i + 1] + models[i + 1..];
    BlockAppend(provider, models[..i + 1], models[i + 1..], urls);
    assert models[..i + 1][..i] == models[..i];
  }

  /** Every key of a block has that block's provider and a listed model and URL. */
  lemma {:induction false} BlockMembers(provider: string, models: seq<string>, urls: seq<string>, k: Key)
    ensures k in Block(provider, models, urls) ==> k.provider == provider && k.model in models && k.baseUrl in urls
  {
    if |models| > 0 {
      var front := models[..|models| - 1];
      RowAt(provider, models[|models| - 1], urls);
      BlockMembers(provider, front, urls, k);
    }
  }

  lemma DisjointAppend<T>(a: seq<T>, b: seq<T>)
    requires NoDuplicates(a) && NoDuplicates(b)
    requires forall x :: x in a ==> x !in b
    ensures NoDuplicates(a + b)
  {
    forall i, j | 0 <= i < j < |a + b|
      ensures (a + b)[i] != (a + b)[j]
    {
      if i < |a| && j >= |a| {
        assert (a + b)[i] in a && (a + b)[j] in b;
      }
    }
  }

  /** With distinct models and URLs, a block visits no key twice. */
  lemma {:induction false} BlockDistinct(provider: string, models: seq<string>, urls: seq<string>)
    requires NoDuplicates(models) && NoDuplicates(urls)
    ensures NoDuplicates(Block(provider, models, urls))
  {
    var n := |models|;
    if n > 0 {
      var front := models[..n - 1];
      var last := models[n - 1];
      BlockDistinct(provider, front, urls);
      RowAt(provider, last, urls);
      forall k | k in Block(provider, front, urls)
        ensures k !in Row(provider, last, urls)
      {
        BlockMembers(provider, front, urls, k);
      }
      DisjointAppend(Block(provider, front, urls), Row(provider, last, urls));
    }
  }

  /** The walk is the `openrouter` block followed by the `openai` block. */
  lemma TraversalHalves(cfg: LlmConfig)
    ensures Traversal(cfg) == Block(OpenRouter, CandidateModels(cfg), CandidateUrls(cfg))
                              + Block(OpenAI, CandidateModels(cfg), CandidateUrls(cfg))
  {
    var ms, us := CandidateModels(cfg), CandidateUrls(cfg);
    assert ProviderOrder[..1] == [OpenRouter];
    assert Grid(ProviderOrder[..1], ms, us) == Block(OpenRouter, ms, us);
  }

  /**
   * The `seen` test of `_build_llm_attempts` never skips a key: models and
   * URLs are de-duplicated first, so the walk has no repeated
   * `(provider, model, base_url)` triple.
   */
  lemma SeenNeverSkips(cfg: LlmConfig)
    ensures NoDuplicates(Traversal(cfg))
    ensures Dedup(Traversal(cfg)) == Traversal(cfg)
  {
    var ms, us := CandidateModels(cfg), CandidateUrls(cfg);
    DedupFacts([cfg.model] + cfg.fallbackModels);
    DedupFacts([cfg.baseUrl] + cfg.fallbackBaseUrls);
    TraversalHalves(cfg);
    BlockDistinct(OpenRouter, ms, us);
    BlockDistinct(OpenAI, ms, us);
    forall k | k in Block(OpenRouter, ms, us)
      ensures k !in Block(OpenAI, ms, us)
    {
      BlockMembers(OpenRouter, ms, us, k);
      BlockMembers(OpenAI, ms, us, k);
    }
    DisjointAppend(Block(OpenRouter, ms, us), Block(OpenAI, ms, us));
    DedupOfDistinct(Traversal(cfg));
  }

  lemma {:induction false} OverridesAt(cfg: LlmConfig, keys: seq<Key>)
    ensures |Overrides(cfg, keys)| == |keys|
    ensures forall i :: 0 <= i < |keys| ==> Overrides(cfg, keys)[i] == MakeOverride(cfg, keys[i])
  {
    if |keys| > 0 {
      OverridesAt(cfg, keys[..|keys| - 1]);
    }
  }

  lemma {:induction false} OverridesAppend(cfg: LlmConfig, a: seq<Key>, b: seq<Key>)
    ensures Overrides(cfg, a + b) == Overrides(cfg, a) + Overrides(cfg, b)
  {
    if |b| == 0 {
      assert a + b == a;
    } else {
      var front := b[..|b| - 1];
      OverridesAppend(cfg, a, front);
      assert (a + b)[..|a + b| - 1] == a + front;
      assert (a + b)[|a + b| - 1] == b[|b| - 1];
      AppendAssoc(Overrides(cfg, a), Overrides(cfg, front), [MakeOverride(cfg, b[|b| - 1])]);
    }
  }

  /**
   * The attempt list: never empty, `2 * |models| * |urls|` overrides, all
   * of the `openrouter` family before all of the `openai` family, one per
   * `(model, base_url)` pair of the de-duplicated lists.
   */
  lemma PlanLayout(cfg: LlmConfig)
    ensures |Plan(cfg)| == 2 * |CandidateModels(cfg)| * |CandidateUrls(cfg)| >= 2
    ensures Plan(cfg) == Overrides(cfg, Block(OpenRouter, CandidateModels(cfg), CandidateUrls(cfg)))
                         + Overrides(cfg, Block(OpenAI, CandidateModels(cfg), CandidateUrls(cfg)))
  {
    var ms, us := CandidateModels(cfg), CandidateUrls(cfg);
    var walk := Traversal(cfg);
    SeenNeverSkips(cfg);
    PlanIsWalk(cfg);
    TraversalHalves(cfg);
    OverridesAppend(cfg, Block(OpenRouter, ms, us), Block(OpenAI, ms, us));
    BlockSize(OpenRouter, ms, us);
    BlockSize(OpenAI, ms, us);
    OverridesAt(cfg, walk);
    DedupHead([cfg.model] + cfg.fallbackModels);
    DedupHead([cfg.baseUrl] + cfg.fallbackBaseUrls);
    assert |ms| >= 1 && |us| >= 1;
    Twice(|ms|, |us|);
  }

  lemma Twice(a: nat, b: nat)
    ensures 2 * a * b == a * b + a * b
    ensures a >= 1 && b >= 1 ==> a * b >= 1
  {
  }

  /** Neither the `seen` test nor the empty-list guard ever changes the walk's overrides. */
  lemma PlanIsWalk(cfg: LlmConfig)
    ensures Plan(cfg) == Overrides(cfg, Traversal(cfg))
  {
    SeenNeverSkips(cfg);
    TraversalStartsWithPrimary(cfg);
  }

  /** The walk starts at the primary key: `openrouter`, primary model, primary URL. */
  lemma TraversalStartsWithPrimary(cfg: LlmConfig)
    ensures |Traversal(cfg)| > 0 && Traversal(cfg)[0] == Key(OpenRouter, cfg.model, cfg.baseUrl)
  {
    var ms, us := CandidateModels(cfg), CandidateUrls(cfg);
    TraversalHalves(cfg);
    DedupHead([cfg.model] + cfg.fallbackModels);
    DedupHead([cfg.baseUrl] + cfg.fallbackBaseUrls);
    BlockAt(OpenRouter, ms, us, 0);
    RowAt(OpenRouter, ms[0], us);
    assert Block(OpenRouter, ms[..0], us) == [];
  }

  /** The first attempt is `{}`: primary provider, model and URL. */
  lemma PlanStartsWithPrimary(cfg: LlmConfig)
    ensures |Plan(cfg)| > 0 && Plan(cfg)[0] == map[]
  {
    PlanIsWalk(cfg);
    TraversalStartsWithPrimary(cfg);
    OverridesAt(cfg, Traversal(cfg));
  }

  /**
   * Every `openrouter` key precedes every `openai` key, and the walk uses
   * no other provider.
   */
  lemma ProvidersInOrder(cfg: LlmConfig)
    ensures forall i :: 0 <= i < |Traversal(cfg)| ==> Traversal(cfg)[i].provider in ProviderOrder
    ensures forall i, j :: 0 <= i < j < |Traversal(cfg)| && Traversal(cfg)[i].provider == OpenAI ==>
              Traversal(cfg)[j].provider == OpenAI
  {
    var ms, us := CandidateModels(cfg), CandidateUrls(cfg);
    var first, second := Block(OpenRouter, ms, us), Block(OpenAI, ms, us);
    TraversalHalves(cfg);
    forall i | 0 <= i < |Traversal(cfg)|
      ensures i < |first| ==> Traversal(cfg)[i].provider == OpenRouter
      ensures i >= |first| ==> Traversal(cfg)[i].provider == OpenAI
    {
      if i < |first| {
        BlockMembers(OpenRouter, ms, us, first[i]);
      } else {
        BlockMembers(OpenAI, ms, us, second[i - |first|]);
      }
    }
  }

  /** The field rules of `_build_llm_attempts` for the override `o` of key `k`. */
  ghost predicate FieldRules(cfg: LlmConfig, k: Key, o: Override)
  {
    && o.Keys <= {"base_url", "model", "provider", "default_headers", "extra_headers"}
    && ("base_url" in o <==> k.baseUrl != cfg.baseUrl)
    && ("base_url" in o ==> o["base_url"] == Str(k.baseUrl))
    && ("model" in o ==> o["model"] == Str(k.model))
    && (k.provider == OpenRouter ==>
          && "provider" !in o && "default_headers" !in o && "extra_headers" !in o
          && ("model" in o <==> k.model != cfg.model))
    && (k.provider == OpenAI ==>
          && "provider" in o && o["provider"] == Str(OpenAI) && "model" in o
          && ("default_headers" in o <==> |cfg.headers| > 0)
          && ("extra_headers" in o <==> |cfg.headers| > 0)
          && ("default_headers" in o ==> o["default_headers"] == Headers(cfg.headers))
          && ("extra_headers" in o ==> o["extra_headers"] == Headers(cfg.headers)))
  }

  /**
   * Every attempt follows the field rules for its key: `base_url` only
   * when it differs from the primary URL; an `openrouter` attempt has no
   * `provider` and a `model` only when it differs from the primary; an
   * `openai` attempt names its provider and model and carries both header
   * maps exactly when the config has headers.
   */
  lemma AttemptsFollowFieldRules(cfg: LlmConfig)
    ensures |Plan(cfg)| == |Traversal(cfg)|
    ensures forall n :: 0 <= n < |Plan(cfg)| ==> FieldRules(cfg, Traversal(cfg)[n], Plan(cfg)[n])
  {
    var walk := Traversal(cfg);
    PlanIsWalk(cfg);
    OverridesAt(cfg, walk);
    ProvidersInOrder(cfg);
    forall n | 0 <= n < |walk|
      ensures FieldRules(cfg, walk[n], Plan(cfg)[n])
    {
      MakeOverrideFollowsRules(cfg, walk[n]);
    }
  }

  lemma MakeOverrideFollowsRules(cfg: LlmConfig, k: Key)
    requires k.provider in ProviderOrder
    ensures FieldRules(cfg, k, MakeOverride(cfg, k))
  {
  }

  /** If attempt i has a `provider` key, every later attempt has one too: the `openai` attempts come last. */
  lemma OpenAIAttemptsComeLast(cfg: LlmConfig)
    ensures forall i, j :: 0 <= i < j < |Plan(cfg)| && "provider" in Plan(cfg)[i] ==> "provider" in Plan(cfg)[j]
  {
    AttemptsFollowFieldRules(cfg);
    ProvidersInOrder(cfg);
  }

  const DefaultProviderLabel: string := "openrouter-liteLLM"

  /** `overrides.get(field, default)` for a string-valued field. */
  function Label(o: Override, field: string, default: string): string
  {
    if field in o && o[field].Str? then o[field].s else default
  }

  /**
   * The provider, model and base URL a crew run uses under override `o`,
   * read back as `_execute_crew` does before kickoff.
   */
  function Resolve(cfg: LlmConfig, o: Override): Key
  {
    Key(Label(o, "provider", DefaultProviderLabel), Label(o, "model", cfg.model), Label(o, "base_url", cfg.baseUrl))
  }

  /** The label under which a provider family runs. */
  function ProviderLabel(provider: string): string
  {
    if provider == OpenRouter then DefaultProviderLabel else provider
  }

  /** An override reads back as the key it was built from. */
  lemma ResolveMakeOverride(cfg: LlmConfig, k: Key)
    requires k.provider in ProviderOrder
    ensures Resolve(cfg, MakeOverride(cfg, k)) == Key(ProviderLabel(k.provider), k.model, k.baseUrl)
  {
  }

  /**
   * No two attempts run the same `(provider, model, base_url)`: the
   * read-back keys are pairwise different, hence so are the overrides.
   */
  lemma AttemptsDistinct(cfg: LlmConfig)
    ensures forall i, j :: 0 <= i < j < |Plan(cfg)| ==> Resolve(cfg, Plan(cfg)[i]) != Resolve(cfg, Plan(cfg)[j])
    ensures NoDuplicates(Plan(cfg))
  {
    var walk := Traversal(cfg);
    PlanIsWalk(cfg);
    OverridesAt(cfg, walk);
    SeenNeverSkips(cfg);
    ProvidersInOrder(cfg);
    forall i | 0 <= i < |walk|
      ensures Resolve(cfg, Plan(cfg)[i]) == Key(ProviderLabel(walk[i].provider), walk[i].model, walk[i].baseUrl)
    {
      ResolveMakeOverride(cfg, walk[i]);
    }
  }

  /**
   * Only the first attempt is `{}`; so the loop logs an "attempt starting"
   * record for every attempt but the first.
   */
  lemma OnlyFirstAttemptIsEmpty(cfg: LlmConfig)
    ensures forall i :: 0 < i < |Plan(cfg)| ==> |Plan(cfg)[i]| > 0
  {
    PlanStartsWithPrimary(cfg);
    AttemptsDistinct(cfg);
    forall i | 0 < i < |Plan(cfg)|
      ensures |Plan(cfg)[i]| > 0
    {
      assert Plan(cfg)[i] != Plan(cfg)[0];
    }
  }

  /** Without fallbacks or headers: the primary, then the same model through `openai`. */
  lemma PrimaryOnlyExample()
    ensures Plan(LlmConfig("m1", [], "u1", [], map[]))
            == [map[], map["provider" := Str(OpenAI), "model" := Str("m1")]]
  {
    var cfg := LlmConfig("m1", [], "u1", [], map[]);
    DedupSnoc([], "m1");
    DedupSnoc([], "u1");
    assert [cfg.model] + cfg.fallbackModels == [] + ["m1"];
    assert [cfg.baseUrl] + cfg.fallbackBaseUrls == [] + ["u1"];
    TraversalHalves(cfg);
    assert Row(OpenRouter, "m1", ["u1"]) == [Key(OpenRouter, "m1", "u1")];
    assert Row(OpenAI, "m1", ["u1"]) == [Key(OpenAI, "m1", "u1")];
    assert Traversal(cfg) == [Key(OpenRouter, "m1", "u1"), Key(OpenAI, "m1", "u1")];
    PlanIsWalk(cfg);
    OverridesAt(cfg, Traversal(cfg));
  }

  /**
   * Models `[m1, m2, m1]` and URLs `[u1, u1, u2]`: two distinct models and
   * two distinct URLs, so `2 * 2 * 2 = 8` attempts.
   */
  lemma RepeatedFallbacksExample(m1: string, m2: string, u1: string, u2: string)
    requires m1 != m2 && u1 != u2
    ensures |Plan(LlmConfig(m1, [m2, m1], u1, [u1, u2], map[]))| == 8
  {
    var cfg := LlmConfig(m1, [m2, m1], u1, [u1, u2], map[]);
    RepeatedPrimaryDropped(m1, m2);
    RepeatedFirstDropped(u1, u2);
    assert [cfg.model] + cfg.fallbackModels == [m1, m2, m1];
    assert [cfg.baseUrl] + cfg.fallbackBaseUrls == [u1, u1, u2];
    PlanLayout(cfg);
  }

  lemma RepeatedPrimaryDropped(a: string, b: string)
    requires a != b
    ensures |Dedup([a, b, a])| == 2
  {
    DedupSnoc([], a);
    DedupSnoc([a], b);
    DedupSnoc([a, b], a);
    assert [a, b, a] == [a, b] + [a] && [a] + [b] == [a, b] && [] + [a] == [a];
  }

  lemma RepeatedFirstDropped(a: string, b: string)
    requires a != b
    ensures |Dedup([a, a, b])| == 2
  {
    DedupSnoc([], a);
    DedupSnoc([a], a);
    DedupSnoc([a, a], b);
    assert [a, a, b] == [a, a] + [b] && [a] + [a] == [a, a] && [] + [a] == [a];
  }

  // ---------------------------------------------------------------------
  // Redaction for logging (`_sanitize_overrides`)
  // ---------------------------------------------------------------------

  const Placeholder: string := "[set]"

  /** The keys whose values are never logged, in the order the loop visits them. */
  const SensitiveKeys: seq<string> := ["extra_headers", "default_headers", "api_key"]

  /** The redacted copy: same keys, each sensitive value replaced by `"[set]"`. */
  function Sanitized(o: Override): Override
  {
    map k | k in o :: if k in SensitiveKeys then Str(Placeholder) else o[k]
  }

  /** No sensitive key of `o` carries anything but the placeholder. */
  ghost predicate Redacted(o: Override)
  {
    forall k :: k in o && k in SensitiveKeys ==> o[k] == Str(Placeholder)
  }

  /**
   * `_sanitize_overrides`: copy the map, then overwrite each sensitive key
   * that is present. The argument is a value and is left as it was.
   */
  method SanitizeOverrides(overrides: Override) returns (sanitized: Override)
    ensures sanitized == Sanitized(overrides)
  {
    sanitized := overrides;
    for i := 0 to |SensitiveKeys|
      invariant sanitized.Keys == overrides.Keys
      invariant forall k :: k in sanitized ==>
                  sanitized[k] == if k in SensitiveKeys[..i] then Str(Placeholder) else overrides[k]
    {
      var key := SensitiveKeys[i];
      if key in sanitized {
        sanitized := sanitized[key := Str(Placeholder)];
      }
      assert SensitiveKeys[..i + 1] == SensitiveKeys[..i] + [key];
    }
    assert SensitiveKeys[..|SensitiveKeys|] == SensitiveKeys;
  }

  /**
   * The redacted copy has exactly the keys of the original, hides every
   * sensitive value and leaves every other value as it was.
   */
  lemma SanitizeRedacts(o: Override)
    ensures Sanitized(o).Keys == o.Keys
    ensures Redacted(Sanitized(o))
    ensures forall k :: k in o && k !in SensitiveKeys ==> Sanitized(o)[k] == o[k]
  {
  }

  /** Redacting twice is redacting once. */
  lemma SanitizeIdempotent(o: Override)
    ensures Sanitized(Sanitized(o)) == Sanitized(o)
  {
    assert Sanitized(Sanitized(o)).Keys == Sanitized(o).Keys;
  }

  // ---------------------------------------------------------------------
  // The retry loop of `run_code_development_pipeline`
  // ---------------------------------------------------------------------

  /**
   * How the pipeline ends: it returns a text, re-raises an attempt's
   * exception, or (on an empty attempt list) fails its
   * `assert last_error is not None`.
   */
  datatype RunResult<E> = Returned(output: string) | Raised(error: E) | AssertionFailed

  /** The log records of the loop, each with the redacted override. */
  datatype LogEvent<E> =
    | AttemptStarting(index: nat, total: nat, overrides: Override)
    | FallbackSucceeded(index: nat, total: nat, overrides: Override)
    | AttemptFailed(index: nat, total: nat, overrides: Override, error: E)

  /**
   * Reference behaviour: try the attempts in order, return the first
   * success; if all fail, raise the last failure.
   */
  function Retry<E>(topic: string, attempts: seq<Override>, runOnce: (string, Override) -> Result<string, E>): RunResult<E>
  {
    if |attempts| == 0 then AssertionFailed
    else match runOnce(topic, attempts[0])
      case Ok(r) => Returned(r)
      case Err(e) => if |attempts| == 1 then Raised(e) else Retry(topic, attempts[1..], runOnce)
  }

  /** A failed attempt hands over to the rest of the list, or is raised when it was the last. */
  lemma RetryAfterFailure<E>(topic: string, attempts: seq<Override>, runOnce: (string, Override) -> Result<string, E>, k: nat)
    requires k < |attempts| && runOnce(topic, attempts[k]).Err?
    ensures Retry(topic, attempts[k..], runOnce)
            == if k + 1 == |attempts| then Raised(runOnce(topic, attempts[k]).error)
               else Retry(topic, attempts[k + 1..], runOnce)
  {
    assert attempts[k..][1..] == attempts[k + 1..];
  }

  /** The records logged for attempt `index` of `total`, given how it ended. */
  function AttemptLog<E>(index: nat, total: nat, o: Override, outcome: Result<string, E>): seq<LogEvent<E>>
  {
    (if |o| > 0 then [AttemptStarting(index, total, Sanitized(o))] else [])
    + match outcome
      case Ok(_) => if index > 1 then [FallbackSucceeded(index, total, Sanitized(o))] else []
      case Err(e) => [AttemptFailed(index, total, Sanitized(o), e)]
  }

  /** The records logged by the first `n` attempts. */
  function RunLog<E>(topic: string, attempts: seq<Override>, runOnce: (string, Override) -> Result<string, E>, n: nat): seq<LogEvent<E>>
    requires n <= |attempts|
  {
    if n == 0 then []
    else RunLog(topic, attempts, runOnce, n - 1)
         + AttemptLog(n, |attempts|, attempts[n - 1], runOnce(topic, attempts[n - 1]))
  }

  /**
   * The `for index, overrides in enumerate(attempts, start=1)` loop:
   * `tried` lists the overrides handed to `runOnce`, in order, and `log`
   * the records written.
   */
  method RunWithFallback<E>(topic: string, attempts: seq<Override>, runOnce: (string, Override) -> Result<string, E>)
    returns (result: RunResult<E>, tried: seq<Override>, log: seq<LogEvent<E>>)
    ensures result == Retry(topic, attempts, runOnce)
    ensures |tried| <= |attempts| && tried == attempts[..|tried|]
    ensures log == RunLog(topic, attempts, runOnce, |tried|)
    ensures forall i :: 0 <= i < |tried| - 1 ==> runOnce(topic, tried[i]).Err?
    ensures result.Returned? ==> |tried| >= 1 && runOnce(topic, tried[|tried| - 1]) == Ok(result.output)
    ensures result.Raised? ==>
              && |tried| == |attempts| >= 1
              && runOnce(topic, attempts[|attempts| - 1]) == Err(result.error)
              && forall i :: 0 <= i < |attempts| ==> runOnce(topic, attempts[i]).Err?
    ensures result.AssertionFailed? <==> |attempts| == 0
  {
    var lastError: Option<E> := None;
    var total := |attempts|;
    tried, log := [], [];
    for index := 1 to total + 1
      invariant tried == attempts[..index - 1]
      invariant forall i :: 0 <= i < index - 1 ==> runOnce(topic, attempts[i]).Err?
      invariant lastError == if index == 1 then None else Some(runOnce(topic, attempts[index - 2]).error)
      invariant log == RunLog(topic, attempts, runOnce, index - 1)
      invariant index <= total ==> Retry(topic, attempts, runOnce) == Retry(topic, attempts[index - 1..], runOnce)
      invariant index == total + 1 && total > 0 ==> Retry(topic, attempts, runOnce) == Raised(lastError.value)
    {
      var overrides := attempts[index - 1];
      ghost var logged := log;
      if |overrides| > 0 {
        var shown := SanitizeOverrides(overrides);
        log := log + [AttemptStarting(index, total, shown)];
      }
      tried := tried + [overrides];
      var outcome := runOnce(topic, overrides);
      match outcome {
        case Ok(r) =>
          if index > 1 {
            var shown := SanitizeOverrides(overrides);
            log := log + [FallbackSucceeded(index, total, shown)];
          }
          result := Returned(r);
          assert log == logged + AttemptLog(index, total, overrides, outcome);
          return;
        case Err(e) =>
          lastError := Some(e);
          RetryAfterFailure(topic, attempts, runOnce, index - 1);
          var shown := SanitizeOverrides(overrides);
          log := log + [AttemptFailed(index, total, shown, e)];
          assert log == logged + AttemptLog(index, total, overrides, outcome);
      }
    }
    if lastError.None? {
      result := AssertionFailed;
    } else {
      result := Raised(lastError.value);
    }
  }

  /** The first success wins: earlier failures are skipped, later attempts never matter. */
  lemma {:induction false} RetryFirstSuccess<E>(topic: string, attempts: seq<Override>, runOnce: (string, Override) -> Result<string, E>, j: nat)
    requires j < |attempts| && runOnce(topic, attempts[j]).Ok?
    requires forall i :: 0 <= i < j ==> runOnce(topic, attempts[i]).Err?
    ensures Retry(topic, attempts, runOnce) == Returned(runOnce(topic, attempts[j]).value)
    decreases j
  {
    if j > 0 {
      var rest := attempts[1..];
      assert runOnce(topic, attempts[0]).Err?;
      forall i | 0 <= i < j - 1
        ensures runOnce(topic, rest[i]).Err?
      {
        assert rest[i] == attempts[i + 1];
      }
      assert rest[j - 1] == attempts[j];
      RetryFirstSuccess(topic, rest, runOnce, j - 1);
    }
  }

  /** When every attempt fails, the error of the last one is raised. */
  lemma {:induction false} RetryExhausted<E>(topic: string, attempts: seq<Override>, runOnce: (string, Override) -> Result<string, E>)
    requires |attempts| >= 1
    requires forall i :: 0 <= i < |attempts| ==> runOnce(topic, attempts[i]).Err?
    ensures Retry(topic, attempts, runOnce) == Raised(runOnce(topic, attempts[|attempts| - 1]).error)
    decreases |attempts|
  {
    assert runOnce(topic, attempts[0]).Err?;
    if |attempts| > 1 {
      var rest := attempts[1..];
      forall i | 0 <= i < |rest|
        ensures runOnce(topic, rest[i]).Err?
      {
        assert rest[i] == attempts[i + 1];
      }
      RetryExhausted(topic, rest, runOnce);
      assert rest[|rest| - 1] == attempts[|attempts| - 1];
    }
  }

  /** Every override shown in the log is redacted; a failure record's error is kept as raised. */
  lemma {:induction false} RunLogRedacted<E>(topic: string, attempts: seq<Override>, runOnce: (string, Override) -> Result<string, E>, n: nat)
    requires n <= |attempts|
    ensures forall e :: e in RunLog(topic, attempts, runOnce, n) ==> Redacted(e.overrides)
  {
    if n > 0 {
      RunLogRedacted(topic, attempts, runOnce, n - 1);
      SanitizeRedacts(attempts[n - 1]);
    }
  }

  /** Number of failure records in a log. */
  function CountFailed<E>(log: seq<LogEvent<E>>): (c: nat)
    ensures c <= |log|
  {
    if |log| == 0 then 0 else CountFailed(log[..|log| - 1]) + (if log[|log| - 1].AttemptFailed? then 1 else 0)
  }

  /** Number of fallback-success records in a log. */
  function CountFallback<E>(log: seq<LogEvent<E>>): (c: nat)
    ensures c <= |log|
  {
    if |log| == 0 then 0 else CountFallback(log[..|log| - 1]) + (if log[|log| - 1].FallbackSucceeded? then 1 else 0)
  }

  lemma {:induction false} CountAppend<E>(a: seq<LogEvent<E>>, b: seq<LogEvent<E>>)
    ensures CountFailed(a + b) == CountFailed(a) + CountFailed(b)
    ensures CountFallback(a + b) == CountFallback(a) + CountFallback(b)
    decreases |b|
  {
    if |b| == 0 {
      assert a + b == a;
    } else {
      assert (a + b)[..|a + b| - 1] == a + b[..|b| - 1];
      CountAppend(a, b[..|b| - 1]);
    }
  }

  /**
   * A run that ends on attempt `k` logged one failure record for each of
   * the `k - 1` attempts before it (and one more if `k` also failed), and
   * a fallback-success record exactly when it succeeded on a later attempt
   * than the first.
   */
  lemma {:induction false} RunLogCounts<E>(topic: string, attempts: seq<Override>, runOnce: (string, Override) -> Result<string, E>, k: nat)
    requires 1 <= k <= |attempts|
    requires forall i :: 0 <= i < k - 1 ==> runOnce(topic, attempts[i]).Err?
    ensures var log := RunLog(topic, attempts, runOnce, k);
            && CountFailed(log) == (if runOnce(topic, attempts[k - 1]).Err? then k else k - 1)
            && CountFallback(log) == (if runOnce(topic, attempts[k - 1]).Ok? && k > 1 then 1 else 0)
  {
    FailedPrefixCounts(topic, attempts, runOnce, k - 1);
    var o := attempts[k - 1];
    var step := AttemptLog(k, |attempts|, o, runOnce(topic, o));
    CountAppend(RunLog(topic, attempts, runOnce, k - 1), step);
    var start: seq<LogEvent<E>> := if |o| > 0 then [AttemptStarting(k, |attempts|, Sanitized(o))] else [];
    var tail: seq<LogEvent<E>> := step[|start|..];
    assert step == start + tail;
    CountAppend(start, tail);
    assert CountFailed(start) == 0 && CountFallback(start) == 0 by {
      if |start| == 1 { assert start[..0] == []; }
    }
    if |tail| == 1 { assert tail[..0] == []; }
  }

  lemma {:induction false} FailedPrefixCounts<E>(topic: string, attempts: seq<Override>, runOnce: (string, Override) -> Result<string, E>, n: nat)
    requires n <= |attempts|
    requires forall i :: 0 <= i < n ==> runOnce(topic, attempts[i]).Err?
    ensures CountFailed(RunLog(topic, attempts, runOnce, n)) == n
    ensures CountFallback(RunLog(topic, attempts, runOnce, n)) == 0
  {
    if n > 0 {
      FailedPrefixCounts(topic, attempts, runOnce, n - 1);
      var o := attempts[n - 1];
      var step := AttemptLog(n, |attempts|, o, runOnce(topic, o));
      CountAppend(RunLog(topic, attempts, runOnce, n - 1), step);
      var start: seq<LogEvent<E>> := if |o| > 0 then [AttemptStarting(n, |attempts|, Sanitized(o))] else [];
      var tail: seq<LogEvent<E>> := [AttemptFailed(n, |attempts|, Sanitized(o), runOnce(topic, o).error)];
      assert step == start + tail;
      CountAppend(start, tail);
      assert CountFailed(start) == 0 && CountFallback(start) == 0 by {
        if |start| == 1 { assert start[..0] == []; }
      }
      assert tail[..0] == [];
    }
  }

  /**
   * `run_code_development_pipeline`: build the attempts from `cfg`, then run
   * the retry loop. The plan is never empty, so the defensive assertion
   * never fails; an exhausted run has tried every distinct
   * (provider, model, base URL) combination.
   */
  method RunCodeDevelopmentPipeline<E>(topic: string, cfg: LlmConfig, runOnce: (string, Override) -> Result<string, E>)
    returns (result: RunResult<E>, tried: seq<Override>, log: seq<LogEvent<E>>)
    ensures result == Retry(topic, Plan(cfg), runOnce)
    ensures !result.AssertionFailed?
    ensures 1 <= |tried| <= |Plan(cfg)| && tried == Plan(cfg)[..|tried|]
    ensures tried[0] == map[]
    ensures result.Raised? ==> |tried| == 2 * |CandidateModels(cfg)| * |CandidateUrls(cfg)|
    ensures log == RunLog(topic, Plan(cfg), runOnce, |tried|)
  {
    var attempts := BuildLlmAttempts(cfg);
    PlanLayout(cfg);
    PlanStartsWithPrimary(cfg);
    result, tried, log := RunWithFallback(topic, attempts, runOnce);
    assert tried[0] == attempts[0];
  }
}
