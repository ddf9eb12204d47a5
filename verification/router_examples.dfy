/** The router under its default configuration: three mock models, the
    rules policy, a budget of 0.05 USD and 2500 ms, caching and tracing on. */
module RouterExamples {
  import opened Results
  import opened Models
  import opened Text
  import opened Select
  import opened Classifier
  import opened ClassifierExamples
  import opened Policies
  import opened Adapters
  import opened Router

  /** The specs of the default configuration's models. */
  function DefaultSpecs(): (ms: seq<ModelSpec>)
    ensures |ms| == 3
  {
    [ModelSpec("mock-fast", "mock", 0.68, 0.001, 180.0),
     ModelSpec("mock-balanced", "mock", 0.80, 0.003, 500.0),
     ModelSpec("mock-premium", "mock", 0.92, 0.009, 950.0)]
  }

  /** The default registry lists the three mock models in configured order. */
  lemma DefaultRegistry()
    ensures NewRouter(None).Models() == DefaultSpecs()
  {
    RegistryKeepsOrder(DefaultConfig().modelRegistry);
  }

  /** The default policy is the rules policy, under a budget of 0.05 USD
      and 2500 ms. */
  lemma DefaultPolicyAndBudget()
    ensures PolicyFor(NewRouter(None).config.policy) == Rules
    ensures NewRouter(None).Budgets() == Budget(0.05, 2500.0)
  {
    assert Lower("rules") == "rules";
  }

  /** The default router: the three mock models, the rules policy, the
      default budget. */
  lemma DefaultRouter()
    ensures NewRouter(None).Models() == DefaultSpecs()
    ensures PolicyFor(NewRouter(None).config.policy) == Rules
    ensures NewRouter(None).Budgets() == Budget(0.05, 2500.0)
  {
    DefaultRegistry();
    DefaultPolicyAndBudget();
  }

  /** Under the default budget, every default model fits a prompt of at
      most 1000 words. */
  lemma DefaultSpecsAllFit(prompt: string)
    requires WordCount(prompt) <= 1000
    ensures forall k :: 0 <= k < 3 ==> Fits(prompt, Budget(0.05, 2500.0), DefaultSpecs()[k])
  {
    var ms := DefaultSpecs();
    var t := TokenEstimate(prompt) as real / 1000.0;
    assert t <= 3.0;
    forall k | 0 <= k < 3 ensures Fits(prompt, Budget(0.05, 2500.0), ms[k]) {
      assert EstimateCost(prompt, ms[k]) == t * ms[k].expectedCostPer1k;
    }
  }

  /** So on such a prompt the rules policy takes the premium model for code. */
  lemma DefaultSpecsCodeTakesPremium(prompt: string)
    requires WordCount(prompt) <= 1000
    ensures Choose(Rules, prompt, CODE, DefaultSpecs(), Budget(0.05, 2500.0)).value.modelName == "mock-premium"
    ensures Choose(Rules, prompt, CODE, DefaultSpecs(), Budget(0.05, 2500.0)).value.rationale == Fixed(RULES_CODE)
  {
    var ms := DefaultSpecs();
    var b := Budget(0.05, 2500.0);
    var fits := FitsIn(prompt, b);
    DefaultSpecsAllFit(prompt);
    assert fits(ms[0]) && fits(ms[1]) && fits(ms[2]);
    assert AnyWhere(ms, fits);
    var p := RulesPick(prompt, CODE, ms, b);
    LastOfThreeIsFirstMax(ms, fits, Quality);
    FirstMaxUnique(ms, fits, Quality, p.index, 2);
    ChooseReportsPick(Rules, prompt, CODE, ms, b);
  }

  /** So the default router explains a code prompt of at most 1000 words
      with the premium model. */
  lemma DefaultCodeTakesPremium(prompt: string)
    requires Classify(prompt) == CODE && WordCount(prompt) <= 1000
    ensures Explain(NewRouter(None), prompt).Ok?
    ensures Explain(NewRouter(None), prompt).value.modelName == "mock-premium"
    ensures Explain(NewRouter(None), prompt).value.rationale == Fixed(RULES_CODE)
  {
    DefaultRouter();
    DefaultSpecsCodeTakesPremium(prompt);
  }

  /** A new default router answers such a prompt with the mock premium
      model's reply, at the mock's price for the premium rate. */
  lemma DefaultCodeRun(prompt: string, env: Env)
    requires Classify(prompt) == CODE && WordCount(prompt) <= 1000
    ensures Run(NewRouter(None), EMPTY_STATE, env, prompt).Ok?
    ensures Run(NewRouter(None), EMPTY_STATE, env, prompt).value.result ==
      RunResult(CODE, "rules", "mock-premium", Fixed(RULES_CODE),
                MockReply("mock-premium", 0.92, MockTokens(prompt)),
                Run(NewRouter(None), EMPTY_STATE, env, prompt).value.result.latencyMs,
                MockTokens(prompt) as real / 1000.0 * 0.009,
                Run(NewRouter(None), EMPTY_STATE, env, prompt).value.result.metadata,
                false)
  {
    var r := NewRouter(None);
    DefaultRouter();
    DefaultCodeTakesPremium(prompt);
    assert ChosenSpec(r, prompt) == DefaultSpecs()[2];
    MissResult(r, EMPTY_STATE, env, prompt);
  }

  /** On a new router with caching and tracing on, a first successful run
      leaves one trace row and the prompt cached, and a second run answers
      the same from the cache. */
  lemma FirstRunThenHit(r: Router, prompt: string, env: Env, env2: Env)
    requires r.config.enableCache && r.config.traceEnabled
    requires Run(r, EMPTY_STATE, env, prompt).Ok?
    ensures |Run(r, EMPTY_STATE, env, prompt).value.state.trace| == 1
    ensures Run(r, EMPTY_STATE, env, prompt).value.state.cache.Keys == {prompt}
    ensures Run(r, Run(r, EMPTY_STATE, env, prompt).value.state, env2, prompt).value.result
      == Run(r, EMPTY_STATE, env, prompt).value.result.(cacheHit := true)
  {
    RunGrowsCache(r, EMPTY_STATE, env, prompt);
    RunGrowsTrace(r, EMPTY_STATE, env, prompt);
    SecondRunHits(r, EMPTY_STATE, env, env2, prompt);
  }

  /** `router.run("Debug this python function")` on a new default router. */
  lemma DebugPromptRun(env: Env)
    ensures Run(NewRouter(None), EMPTY_STATE, env, "Debug this python function").Ok?
    ensures Run(NewRouter(None), EMPTY_STATE, env, "Debug this python function").value.result.chosenModel
      == "mock-premium"
  {
    DebugPythonFunction();
    DefaultCodeRun("Debug this python function", env);
  }
}
