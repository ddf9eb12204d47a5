/** `router.py`: the `DecisionRouter` that ties the classifier, the policies
    and the adapters together, with its per-prompt result cache and its
    trace. The router's mutable state (cache and trace) is threaded through
    `Run` as a value; the trace file is modelled as the sequence of rows
    that would be appended to it. */
module Router {
  import opened Results
  import opened Models
  import opened Text
  import opened Classifier
  import opened Select
  import opened Policies
  import opened Adapters

  // ---------------------------------------------------------------------
  // Configuration (`config.py`), with its defaults.

  datatype BudgetConfig = BudgetConfig(maxCostUsd: real := 0.05, maxLatencyMs: real := 2500.0)

  datatype PolicyConfig = PolicyConfig(
    name: string := "rules",
    qualityWeight: real := 0.6,
    costWeight: real := 0.2,
    latencyWeight: real := 0.2)

  datatype ModelConfig = ModelConfig(
    name: string,
    provider: string := "mock",
    expectedQuality: real := 0.7,
    expectedCostPer1k: real := 0.002,
    expectedLatencyMs: real := 400.0,
    maxContextTokens: int := DEFAULT_MAX_CONTEXT_TOKENS)

  datatype RouterConfig = RouterConfig(
    enableCache: bool := true,
    budgets: BudgetConfig := BudgetConfig(),
    policy: PolicyConfig := PolicyConfig(),
    traceEnabled: bool := true,
    modelRegistry: seq<ModelConfig> := [])

  /** `default_config()`: three mock models from fast and cheap to slow and good. */
  function DefaultConfig(): RouterConfig {
    RouterConfig(modelRegistry := [
      ModelConfig("mock-fast", "mock", 0.68, 0.001, 180.0),
      ModelConfig("mock-balanced", "mock", 0.80, 0.003, 500.0),
      ModelConfig("mock-premium", "mock", 0.92, 0.009, 950.0)])
  }

  // ---------------------------------------------------------------------
  // The model registry: a dict from name to spec, in insertion order.

  /** The spec the router builds from a configured model: the listed fields
      are copied, and the metadata starts empty. */
  function SpecOf(c: ModelConfig): ModelSpec {
    ModelSpec(c.name, c.provider, c.expectedQuality, c.expectedCostPer1k,
              c.expectedLatencyMs, c.maxContextTokens)
  }

  /** No two entries share a name, as in a dict. */
  predicate UniqueNames(reg: seq<ModelSpec>) {
    forall i, j :: 0 <= i < j < |reg| ==> reg[i].name != reg[j].name
  }

  /** The position of the first entry with this name, or -1. */
  function IndexOf(reg: seq<ModelSpec>, name: string, from: nat := 0): (i: int)
    requires from <= |reg|
    ensures i == -1 || from <= i < |reg|
    ensures i >= 0 ==> reg[i].name == name && forall j :: from <= j < i ==> reg[j].name != name
    ensures i == -1 <==> forall j :: from <= j < |reg| ==> reg[j].name != name
    decreases |reg| - from
  {
    if from == |reg| then -1
    else if reg[from].name == name then from
    else IndexOf(reg, name, from + 1)
  }

  /** `reg[name]`, when the name is present. */
  function Find(reg: seq<ModelSpec>, name: string): (r: Option<ModelSpec>)
    ensures r.None? <==> forall i :: 0 <= i < |reg| ==> reg[i].name != name
    ensures r.Some? ==> r.value in reg && r.value.name == name
  {
    var i := IndexOf(reg, name);
    if i < 0 then None else Some(reg[i])
  }

  /** In a dict, the entry found under a name is the one entry with that name. */
  lemma FindUnique(reg: seq<ModelSpec>, k: nat)
    requires UniqueNames(reg) && k < |reg|
    ensures Find(reg, reg[k].name) == Some(reg[k])
  {
    assert IndexOf(reg, reg[k].name) == k;
  }

  /** `d[m.name] = m`: an existing key keeps its position and takes the new
      value; a new key goes to the end. */
  function Put(reg: seq<ModelSpec>, m: ModelSpec): (r: seq<ModelSpec>)
    ensures UniqueNames(reg) ==> UniqueNames(r)
    ensures |r| >= |reg| && forall i :: 0 <= i < |reg| ==> r[i].name == reg[i].name
    ensures Find(reg, m.name).Some? ==> |r| == |reg|
    ensures Find(reg, m.name).None? ==> r == reg + [m]
  {
    var i := IndexOf(reg, m.name);
    if i < 0 then reg + [m] else reg[i := m]
  }

  /** After `d[m.name] = m`, the name maps to `m` and every other name to what it did. */
  lemma PutFind(reg: seq<ModelSpec>, m: ModelSpec, name: string)
    ensures Find(Put(reg, m), name) == if name == m.name then Some(m) else Find(reg, name)
  {
    var r := Put(reg, m);
    var i := IndexOf(reg, m.name);
    var k := IndexOf(reg, name);
    if name == m.name {
      if i >= 0 {
        assert IndexOf(r, name) == i;
      } else {
        assert r == reg + [m] && r[|reg|].name == name;
        assert IndexOf(r, name) == |reg|;
      }
    } else if k >= 0 {
      assert IndexOf(r, name) == k;
    }
  }

  /** The dict comprehension of `DecisionRouter.__init__`, entry by entry. */
  function Registry(cfgs: seq<ModelConfig>): (reg: seq<ModelSpec>)
    ensures UniqueNames(reg)
  {
    if |cfgs| == 0 then [] else Put(Registry(cfgs[..|cfgs| - 1]), SpecOf(cfgs[|cfgs| - 1]))
  }

  /** `k` is the last configured model with this name. */
  predicate IsLastNamed(cfgs: seq<ModelConfig>, name: string, k: int) {
    0 <= k < |cfgs| && cfgs[k].name == name && forall j :: k < j < |cfgs| ==> cfgs[j].name != name
  }

  /** A name is registered exactly when some configured model has it, and
      then it maps to the spec of the LAST configured model with that name. */
  lemma {:induction false} RegistryLookup(cfgs: seq<ModelConfig>, name: string)
    ensures Find(Registry(cfgs), name).None? <==> forall k :: 0 <= k < |cfgs| ==> cfgs[k].name != name
    ensures forall k :: IsLastNamed(cfgs, name, k) ==> Find(Registry(cfgs), name) == Some(SpecOf(cfgs[k]))
  {
    if |cfgs| > 0 {
      var init := cfgs[..|cfgs| - 1];
      RegistryLookup(init, name);
      PutFind(Registry(init), SpecOf(cfgs[|cfgs| - 1]), name);
      assert forall k :: 0 <= k < |init| ==> init[k] == cfgs[k];
      forall k | IsLastNamed(cfgs, name, k)
        ensures Find(Registry(cfgs), name) == Some(SpecOf(cfgs[k]))
      {
        if k < |cfgs| - 1 {
          assert IsLastNamed(init, name, k);
        }
      }
    }
  }

  /** With distinct configured names, the registry lists the specs in the
      configured order. */
  lemma {:induction false} RegistryKeepsOrder(cfgs: seq<ModelConfig>)
    requires forall i, j :: 0 <= i < j < |cfgs| ==> cfgs[i].name != cfgs[j].name
    ensures |Registry(cfgs)| == |cfgs|
    ensures forall i :: 0 <= i < |cfgs| ==> Registry(cfgs)[i] == SpecOf(cfgs[i])
  {
    if |cfgs| > 0 {
      var init := cfgs[..|cfgs| - 1];
      var last := cfgs[|cfgs| - 1];
      RegistryKeepsOrder(init);
      RegistryLookup(init, last.name);
      assert Registry(cfgs) == Registry(init) + [SpecOf(last)];
    }
  }

  // ---------------------------------------------------------------------
  // The router.

  /** A `DecisionRouter`: its configuration; everything else is derived. */
  datatype Router = Router(config: RouterConfig) {
    /** `self.models`. */
    function Models(): seq<ModelSpec> {
      Registry(config.modelRegistry)
    }

    /** The configured budgets, as the policies take them. */
    function Budgets(): Budget {
      Budget(config.budgets.maxCostUsd, config.budgets.maxLatencyMs)
    }
  }

  /** `DecisionRouter(config)`: without a configuration, the default one. */
  function NewRouter(config: Option<RouterConfig>): (r: Router)
    ensures config.Some? ==> r.config == config.value
    ensures config.None? ==> r.config == DefaultConfig()
  {
    Router(if config.Some? then config.value else DefaultConfig())
  }

  /** `DecisionRouter._policy`: the score policy, with the configured
      weights, exactly when the configured name lower-cases to "score". */
  function PolicyFor(pc: PolicyConfig): (p: Policy)
    ensures p.Score? <==> Lower(pc.name) == "score"
    ensures p.Score? ==> p == Score(pc.qualityWeight, pc.costWeight, pc.latencyWeight)
  {
    if Lower(pc.name) == "score" then Score(pc.qualityWeight, pc.costWeight, pc.latencyWeight)
    else Rules
  }

  /** The policy name is read without regard to case. */
  lemma PolicyNameIgnoresCase(pc: PolicyConfig)
    ensures PolicyFor(pc.(name := Upper(pc.name))) == PolicyFor(pc)
    ensures PolicyFor(pc.(name := Lower(pc.name))) == PolicyFor(pc)
  {
    LowerOfUpper(pc.name);
    LowerIdempotent(pc.name);
  }

  /** `DecisionRouter.explain`: classify, then let the configured policy choose
      among the registered models under the configured budgets. */
  function Explain(r: Router, prompt: string): (res: Result<RoutingDecision>)
    ensures res.Err? <==> |r.config.modelRegistry| == 0
    ensures res.Err? ==> res.error == NoModelsAvailable
    ensures res.Ok? ==> res.value.taskType == Classify(prompt)
    ensures res.Ok? ==> res.value.policy == (if Lower(r.config.policy.name) == "score" then "score" else "rules")
    ensures res.Ok? ==> exists k :: 0 <= k < |r.Models()| && DescribesModel(res.value, prompt, r.Models()[k])
    ensures res.Ok? ==> |r.Models()| > 0
    ensures res.Ok? ==>
      var p := PickFor(PolicyFor(r.config.policy), prompt, Classify(prompt), r.Models(), r.Budgets());
      DescribesModel(res.value, prompt, r.Models()[p.index]) && res.value.rationale == p.rationale
    ensures res.Ok? && AnyWhere(r.Models(), FitsIn(prompt, r.Budgets())) ==>
      res.value.expectedCost <= r.config.budgets.maxCostUsd
      && res.value.expectedLatencyMs <= r.config.budgets.maxLatencyMs
  {
    assert |r.config.modelRegistry| == 0 <==> |r.Models()| == 0 by {
      if |r.config.modelRegistry| > 0 {
        RegistryLookup(r.config.modelRegistry, r.config.modelRegistry[0].name);
      }
    }
    if |r.Models()| == 0 then Err(NoModelsAvailable)
    else
      ChooseReportsPick(PolicyFor(r.config.policy), prompt, Classify(prompt), r.Models(), r.Budgets());
      Choose(PolicyFor(r.config.policy), prompt, Classify(prompt), r.Models(), r.Budgets())
  }

  /** The model `explain` names is always registered, so the lookup that
      follows it in `run` cannot fail. */
  lemma ExplainedModelIsRegistered(r: Router, prompt: string)
    requires |r.config.modelRegistry| > 0
    ensures Find(r.Models(), Explain(r, prompt).value.modelName).Some?
    ensures DescribesModel(Explain(r, prompt).value, prompt,
                           Find(r.Models(), Explain(r, prompt).value.modelName).value)
  {
    var d := Explain(r, prompt).value;
    var k :| 0 <= k < |r.Models()| && DescribesModel(d, prompt, r.Models()[k]);
    FindUnique(r.Models(), k);
  }

  // ---------------------------------------------------------------------
  // Running a prompt: the cache and the trace.

  /** The dict `run` returns, and the cache stores. */
  datatype RunResult = RunResult(
    taskType: string,
    policy: string,
    chosenModel: string,
    rationale: Rationale,
    response: ReplyText,
    latencyMs: real,
    estCost: real,
    metadata: Metadata,
    cacheHit: bool)

  /** One trace row, without its timestamp and prompt hash: a replayed
      cache entry (marked `cached`), or a fresh decision with its result. */
  datatype TraceEntry =
    | CachedRow(prompt: string, result: RunResult)
    | FreshRow(prompt: string, decision: RoutingDecision, result: RunResult)

  /** The router's mutable state: the cache by prompt, and the trace rows written so far. */
  datatype State = State(cache: map<string, RunResult>, trace: seq<TraceEntry>)

  /** The state of a new router. */
  const EMPTY_STATE: State := State(map[], [])

  /** `TraceLogger.log`: appends a row only when tracing is enabled. */
  function Log(r: Router, trace: seq<TraceEntry>, row: TraceEntry): (t: seq<TraceEntry>)
    ensures r.config.traceEnabled ==> t == trace + [row]
    ensures !r.config.traceEnabled ==> t == trace
  {
    if r.config.traceEnabled then trace + [row] else trace
  }

  /** What a successful `run` returns, with the state after it. */
  datatype Outcome = Outcome(result: RunResult, state: State)

  /** The entry `run` records for a fresh decision and response. */
  function ResultOf(d: RoutingDecision, resp: ModelResponse): RunResult {
    RunResult(d.taskType, d.policy, d.modelName, d.rationale, resp.text,
              resp.latencyMs, resp.estimatedCost, resp.metadata, false)
  }

  /** A cache hit: the stored result, marked as a hit, is returned and
      traced; the cache itself is left as it was. */
  function Replay(r: Router, st: State, prompt: string): (o: Outcome)
    requires prompt in st.cache
    ensures o.result == st.cache[prompt].(cacheHit := true)
    ensures o.state == State(st.cache, Log(r, st.trace, CachedRow(prompt, o.result)))
  {
    var cached := st.cache[prompt].(cacheHit := true);
    Outcome(cached, st.(trace := Log(r, st.trace, CachedRow(prompt, cached))))
  }

  /** A cache miss: explain, look the chosen model up, generate, then trace
      and (when caching is on) store the result. Both failures happen before
      the trace or the cache is touched. */
  function Fresh(r: Router, st: State, env: Env, prompt: string): (res: Result<Outcome>)
    ensures Explain(r, prompt).Err? ==> res == Err(NoModelsAvailable)
    ensures res.Err? ==> res.error == NoModelsAvailable || res.error == MissingApiKey
    ensures res.Ok? ==> Explain(r, prompt).Ok? && !res.value.result.cacheHit
    ensures res.Ok? ==> res.value.result.taskType == Classify(prompt)
    ensures res.Ok? ==> res.value.result.chosenModel == Explain(r, prompt).value.modelName
    ensures res.Ok? ==> res.value.state.trace == Log(r, st.trace, FreshRow(prompt, Explain(r, prompt).value, res.value.result))
    ensures res.Ok? ==> res.value.state.cache == if r.config.enableCache then st.cache[prompt := res.value.result] else st.cache
  {
    var d :- Explain(r, prompt);
    ExplainedModelIsRegistered(r, prompt);
    var m := Find(r.Models(), d.modelName).value;
    var resp :- Generate(AdapterFor(m.provider), env, prompt, m);
    var result := ResultOf(d, resp);
    var trace := Log(r, st.trace, FreshRow(prompt, d, result));
    var cache := if r.config.enableCache then st.cache[prompt := result] else st.cache;
    Ok(Outcome(result, State(cache, trace)))
  }

  /** `DecisionRouter.run`: a cache hit when caching is on and the prompt was
      answered before, otherwise a fresh run. */
  function Run(r: Router, st: State, env: Env, prompt: string): (res: Result<Outcome>)
    ensures res.Ok? ==> (res.value.result.cacheHit <==> r.config.enableCache && prompt in st.cache)
    ensures res.Err? ==> !(r.config.enableCache && prompt in st.cache)
  {
    if r.config.enableCache && prompt in st.cache then Ok(Replay(r, st, prompt))
    else Fresh(r, st, env, prompt)
  }

  // ---------------------------------------------------------------------
  // What `run` promises.

  /** A prompt already cached (with caching on) is answered from the cache
      without classifying, choosing or generating: it cannot fail, the
      stored result comes back marked as a hit, and the cache is unchanged. */
  lemma CacheHit(r: Router, st: State, env: Env, prompt: string)
    requires r.config.enableCache && prompt in st.cache
    ensures Run(r, st, env, prompt).Ok?
    ensures Run(r, st, env, prompt).value.result == st.cache[prompt].(cacheHit := true)
    ensures Run(r, st, env, prompt).value.state.cache == st.cache
    ensures r.config.traceEnabled ==>
      Run(r, st, env, prompt).value.state.trace == st.trace + [CachedRow(prompt, st.cache[prompt].(cacheHit := true))]
  {
  }

  /** The chosen model's registry entry, as line 62 of `run` reads it. */
  function ChosenSpec(r: Router, prompt: string): (m: ModelSpec)
    requires |r.config.modelRegistry| > 0
    ensures m in r.Models() && m.name == Explain(r, prompt).value.modelName
    ensures DescribesModel(Explain(r, prompt).value, prompt, m)
  {
    ExplainedModelIsRegistered(r, prompt);
    Find(r.Models(), Explain(r, prompt).value.modelName).value
  }

  /** A miss fails exactly when there is no model to choose from, or when the
      chosen model is served by OpenAI and no API key is set. */
  lemma MissErrors(r: Router, st: State, env: Env, prompt: string)
    requires !(r.config.enableCache && prompt in st.cache)
    ensures Run(r, st, env, prompt) == Err(NoModelsAvailable) <==> |r.config.modelRegistry| == 0
    ensures Run(r, st, env, prompt) == Err(MissingApiKey) <==>
      |r.config.modelRegistry| > 0 && ChosenSpec(r, prompt).provider == "openai" && KeyMissing(env)
  {
    if Explain(r, prompt).Ok? {
      ExplainedModelIsRegistered(r, prompt);
    }
  }

  /** A miss that succeeds reports the decision `explain` makes for the
      prompt, together with what the chosen model's adapter answered, and
      marks it as no hit; the trace row carries both the decision and the
      result. */
  lemma MissResult(r: Router, st: State, env: Env, prompt: string)
    requires !(r.config.enableCache && prompt in st.cache)
    requires Run(r, st, env, prompt).Ok?
    ensures Explain(r, prompt).Ok?
    ensures Generate(AdapterFor(ChosenSpec(r, prompt).provider), env, prompt, ChosenSpec(r, prompt)).Ok?
    ensures Run(r, st, env, prompt).value.result ==
      ResultOf(Explain(r, prompt).value,
               Generate(AdapterFor(ChosenSpec(r, prompt).provider), env, prompt, ChosenSpec(r, prompt)).value)
    ensures r.config.traceEnabled ==>
      Run(r, st, env, prompt).value.state.trace ==
        st.trace + [FreshRow(prompt, Explain(r, prompt).value, Run(r, st, env, prompt).value.result)]
  {
    ExplainedModelIsRegistered(r, prompt);
  }

  /** With caching on, running a prompt a second time is a hit that returns
      the first answer, whatever the environment of the second call. */
  lemma SecondRunHits(r: Router, st: State, env: Env, env2: Env, prompt: string)
    requires r.config.enableCache
    requires Run(r, st, env, prompt).Ok?
    ensures Run(r, Run(r, st, env, prompt).value.state, env2, prompt).Ok?
    ensures Run(r, Run(r, st, env, prompt).value.state, env2, prompt).value.result ==
      Run(r, st, env, prompt).value.result.(cacheHit := true)
    ensures Run(r, Run(r, st, env, prompt).value.state, env2, prompt).value.result.cacheHit
  {
    var o := Run(r, st, env, prompt).value;
    assert prompt in o.state.cache;
    CacheHit(r, o.state, env2, prompt);
    if prompt !in st.cache {
      assert o.state.cache[prompt] == o.result;
    }
  }

  /** With caching off, `run` never reads or writes the cache. */
  lemma CachingOff(r: Router, st: State, env: Env, prompt: string)
    requires !r.config.enableCache
    ensures Run(r, st, env, prompt) == Fresh(r, st, env, prompt)
    ensures Run(r, st, env, prompt).Ok? ==>
      Run(r, st, env, prompt).value.state.cache == st.cache && !Run(r, st, env, prompt).value.result.cacheHit
  {
  }

  /** With tracing off, `run` leaves the trace as it was. */
  lemma TracingOff(r: Router, st: State, env: Env, prompt: string)
    requires !r.config.traceEnabled
    ensures Run(r, st, env, prompt).Ok? ==> Run(r, st, env, prompt).value.state.trace == st.trace
  {
  }

  /** What every cached entry satisfies: it is stored as no hit, it was
      classified from the prompt it is stored under, and it names a
      registered model. */
  predicate CacheConsistent(r: Router, st: State) {
    forall p :: p in st.cache ==>
      !st.cache[p].cacheHit && st.cache[p].taskType == Classify(p) && Find(r.Models(), st.cache[p].chosenModel).Some?
  }

  /** A successful `run` adds the prompt to the cache's keys exactly when
      caching is on. */
  lemma RunGrowsCache(r: Router, st: State, env: Env, prompt: string)
    requires Run(r, st, env, prompt).Ok?
    ensures Run(r, st, env, prompt).value.state.cache.Keys ==
      st.cache.Keys + (if r.config.enableCache then {prompt} else {})
  {
    var o := Run(r, st, env, prompt).value;
    if r.config.enableCache && prompt in st.cache {
      assert o.state.cache == st.cache;
    } else {
      assert o.state.cache == if r.config.enableCache then st.cache[prompt := o.result] else st.cache;
    }
  }

  /** A successful `run` appends one row to the trace exactly when tracing
      is on, and keeps every earlier row. */
  lemma RunGrowsTrace(r: Router, st: State, env: Env, prompt: string)
    requires Run(r, st, env, prompt).Ok?
    ensures |Run(r, st, env, prompt).value.state.trace| == |st.trace| + (if r.config.traceEnabled then 1 else 0)
    ensures Run(r, st, env, prompt).value.state.trace[..|st.trace|] == st.trace
  {
    var o := Run(r, st, env, prompt).value;
    var row := if r.config.enableCache && prompt in st.cache then CachedRow(prompt, o.result)
               else FreshRow(prompt, Explain(r, prompt).value, o.result);
    assert o.state.trace == Log(r, st.trace, row);
  }

  /** A new router's state is consistent, and `run` keeps it so. */
  lemma RunKeepsCacheConsistent(r: Router, st: State, env: Env, prompt: string)
    requires CacheConsistent(r, st)
    ensures CacheConsistent(r, EMPTY_STATE)
    ensures Run(r, st, env, prompt).Ok? ==> CacheConsistent(r, Run(r, st, env, prompt).value.state)
  {
    if Run(r, st, env, prompt).Ok? && !(r.config.enableCache && prompt in st.cache) {
      var o := Run(r, st, env, prompt).value;
      ExplainedModelIsRegistered(r, prompt);
      forall p | p in o.state.cache
        ensures !o.state.cache[p].cacheHit && o.state.cache[p].taskType == Classify(p)
        ensures Find(r.Models(), o.state.cache[p].chosenModel).Some?
      {
        if p != prompt {
          assert o.state.cache[p] == st.cache[p];
        }
      }
    }
  }
}
