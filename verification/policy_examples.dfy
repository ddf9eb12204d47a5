/** The policies on the three-model list of `tests/test_policies.py`: a fast
    and cheap model, a balanced one, and a slow premium one. Each property is
    proved for every prompt of at most 1000 words, and then instantiated
    with the prompt of the corresponding test. */
module PolicyExamples {
  import opened Results
  import opened Models
  import opened Text
  import opened Select
  import opened Policies

  function TestModels(): (ms: seq<ModelSpec>)
    ensures |ms| == 3
  {
    [ModelSpec("fast", "mock", 0.6, 0.001, 100.0),
     ModelSpec("balanced", "mock", 0.8, 0.003, 500.0),
     ModelSpec("premium", "mock", 0.93, 0.009, 900.0)]
  }

  /** A prompt of at most 1000 words is estimated at most 3000 tokens, so
      each test model's estimate is at most three times its rate. */
  lemma ShortPromptCosts(prompt: string)
    requires WordCount(prompt) <= 1000
    ensures forall k :: 0 <= k < 3 ==>
      0.0 <= EstimateCost(prompt, TestModels()[k]) <= 3.0 * TestModels()[k].expectedCostPer1k
  {
    var ms := TestModels();
    var t := TokenEstimate(prompt);
    assert t <= 3000;
    forall k | 0 <= k < 3
      ensures 0.0 <= EstimateCost(prompt, ms[k]) <= 3.0 * ms[k].expectedCostPer1k
    {
      assert ms[k].expectedCostPer1k >= 0.0;
      assert t as real / 1000.0 <= 3.0;
    }
  }

  /** Rules policy, code task, a generous budget: every model fits, so the
      one of highest quality, the premium model, is chosen. */
  lemma RulesCodeTakesPremium(prompt: string)
    requires WordCount(prompt) <= 1000
    ensures Choose(Rules, prompt, "code", TestModels(), Budget(1.0, 2000.0)).value.modelName == "premium"
    ensures Choose(Rules, prompt, "code", TestModels(), Budget(1.0, 2000.0)).value.rationale == Fixed(RULES_CODE)
  {
    var ms := TestModels();
    var b := Budget(1.0, 2000.0);
    var fits := FitsIn(prompt, b);
    ShortPromptCosts(prompt);
    assert fits(ms[0]) && fits(ms[1]) && fits(ms[2]);
    assert AnyWhere(ms, fits);
    var p := RulesPick(prompt, "code", ms, b);
    LastOfThreeIsFirstMax(ms, fits, Quality);
    FirstMaxUnique(ms, fits, Quality, p.index, 2);
    ChooseReportsPick(Rules, prompt, "code", ms, b);
  }

  /** `test_rules_policy_prefers_quality_for_code`. */
  lemma RulesPrefersQualityForCode()
    ensures Choose(Rules, "Write python code", "code", TestModels(), Budget(1.0, 2000.0)).value.modelName == "premium"
  {
    RulesCodeTakesPremium("Write python code");
  }

  /** Score policy with weights (0.7, 0.2, 0.1) on a general task, with a
      700 ms ceiling: the premium model is too slow, and of the other two
      the balanced model's quality outweighs its cost and latency. */
  lemma ScoreTakesBalanced(prompt: string)
    requires WordCount(prompt) <= 1000
    ensures Choose(Score(0.7, 0.2, 0.1), prompt, "chat/general", TestModels(), Budget(0.02, 700.0)).value.modelName
      == "balanced"
  {
    var ms := TestModels();
    var b := Budget(0.02, 700.0);
    var w := Score(0.7, 0.2, 0.1);
    var fits := FitsIn(prompt, b);
    var u := UtilityFor(w, prompt, "chat/general");
    ShortPromptCosts(prompt);
    assert fits(ms[0]) && fits(ms[1]) && !fits(ms[2]);
    assert AnyWhere(ms, fits);
    assert u(ms[0]) <= 0.41 && u(ms[1]) >= 0.5;
    MiddleOfThreeIsFirstMax(ms, fits, u);
    var p := ScorePick(w, prompt, "chat/general", ms, b);
    FirstMaxUnique(ms, fits, u, p.index, 1);
    ChooseReportsPick(w, prompt, "chat/general", ms, b);
  }

  /** `test_score_policy_selects_viable_model`. */
  lemma ScoreSelectsViableModel()
    ensures Choose(Score(0.7, 0.2, 0.1), "General question", "chat/general", TestModels(), Budget(0.02, 700.0))
      .value.modelName == "balanced"
  {
    ScoreTakesBalanced("General question");
  }

  /** With a zero cost budget no model fits (every estimate is positive), so
      either policy falls back to the model of lowest rate, the fast one. */
  lemma ZeroBudgetFallsBack(policy: Policy, prompt: string, task: string)
    ensures Choose(policy, prompt, task, TestModels(), Budget(0.0, 2000.0)).value.modelName == "fast"
    ensures Choose(policy, prompt, task, TestModels(), Budget(0.0, 2000.0)).value.rationale ==
      Fixed(if policy.Rules? then RULES_FALLBACK else SCORE_FALLBACK)
  {
    var ms := TestModels();
    var b := Budget(0.0, 2000.0);
    forall k | 0 <= k < 3 ensures !Fits(prompt, b, ms[k]) {
      EstimateCostBounds(prompt, ms[k]);
    }
    assert !AnyWhere(ms, FitsIn(prompt, b));
    var p := PickFor(policy, prompt, task, ms, b);
    FirstOfThreeIsFirstMin(ms, Always(), Rate);
    FirstMinUnique(ms, Always(), Rate, p.index, 0);
    ChooseReportsPick(policy, prompt, task, ms, b);
  }

  /** Rules policy, general task: the model whose quality is nearest the 0.8
      target, the balanced one, among the models that fit. */
  lemma RulesGeneralTakesTarget(prompt: string)
    requires WordCount(prompt) <= 1000
    ensures Choose(Rules, prompt, "chat/general", TestModels(), Budget(1.0, 2000.0)).value.modelName == "balanced"
  {
    var ms := TestModels();
    var b := Budget(1.0, 2000.0);
    var fits := FitsIn(prompt, b);
    ShortPromptCosts(prompt);
    assert fits(ms[0]) && fits(ms[1]) && fits(ms[2]);
    assert AnyWhere(ms, fits);
    var p := RulesPick(prompt, "chat/general", ms, b);
    assert IsFirstMinWhere(ms, fits, QualityGap, 1);
    FirstMinUnique(ms, fits, QualityGap, p.index, 1);
    ChooseReportsPick(Rules, prompt, "chat/general", ms, b);
  }

  /** Rules policy, data task: the model of lowest estimated cost, the fast one. */
  lemma RulesDataTakesCheapest(prompt: string)
    requires WordCount(prompt) <= 1000
    ensures Choose(Rules, prompt, "data", TestModels(), Budget(1.0, 2000.0)).value.modelName == "fast"
  {
    var ms := TestModels();
    var b := Budget(1.0, 2000.0);
    var fits := FitsIn(prompt, b);
    var cost := CostFor(prompt);
    ShortPromptCosts(prompt);
    assert fits(ms[0]) && fits(ms[1]) && fits(ms[2]);
    assert AnyWhere(ms, fits);
    CheaperRateCheaperEstimate(prompt, ms[0], ms[1]);
    CheaperRateCheaperEstimate(prompt, ms[0], ms[2]);
    FirstOfThreeIsFirstMin(ms, fits, cost);
    var p := RulesPick(prompt, "data", ms, b);
    FirstMinUnique(ms, fits, cost, p.index, 0);
    ChooseReportsPick(Rules, prompt, "data", ms, b);
  }

  /** Rules policy, short writing prompt: the model of lowest latency, the fast one. */
  lemma RulesShortWritingTakesFastest(prompt: string)
    requires |prompt| < SHORT_WRITING
    ensures Choose(Rules, prompt, "writing", TestModels(), Budget(1.0, 2000.0)).value.modelName == "fast"
  {
    var ms := TestModels();
    var b := Budget(1.0, 2000.0);
    var fits := FitsIn(prompt, b);
    ShortPromptCosts(prompt);
    assert fits(ms[0]) && fits(ms[1]) && fits(ms[2]);
    assert AnyWhere(ms, fits);
    var p := RulesPick(prompt, "writing", ms, b);
    FirstOfThreeIsFirstMin(ms, fits, Latency);
    FirstMinUnique(ms, fits, Latency, p.index, 0);
    ChooseReportsPick(Rules, prompt, "writing", ms, b);
  }

  /** For one prompt, a lower rate means a lower estimate. */
  lemma CheaperRateCheaperEstimate(prompt: string, a: ModelSpec, b: ModelSpec)
    requires a.expectedCostPer1k < b.expectedCostPer1k
    ensures EstimateCost(prompt, a) < EstimateCost(prompt, b)
  {
    var t := TokenEstimate(prompt) as real / 1000.0;
    assert t > 0.0;
    assert EstimateCost(prompt, a) == t * a.expectedCostPer1k;
    assert EstimateCost(prompt, b) == t * b.expectedCostPer1k;
  }

  /** With no weight on cost, the estimate drops out of the utility. */
  lemma UtilityWithoutCost(w: Policy, prompt: string, task: string, m: ModelSpec)
    requires w.Score? && w.costWeight == 0.0
    ensures Utility(w, prompt, task, m) ==
      w.qualityWeight * m.expectedQuality - w.latencyWeight * (m.expectedLatencyMs / 1000.0)
      + (if task == "reasoning" then REASONING_BONUS * m.expectedQuality else 0.0)
  {
  }

  /** With all weight on latency, the score policy takes the fastest model. */
  lemma LatencyWeightTakesFast(prompt: string)
    requires WordCount(prompt) <= 1000
    ensures Choose(Score(0.0, 0.0, 0.01), prompt, "chat/general", TestModels(), Budget(1.0, 2000.0)).value.modelName == "fast"
  {
    var ms := TestModels();
    var b := Budget(1.0, 2000.0);
    var fits := FitsIn(prompt, b);
    ShortPromptCosts(prompt);
    assert fits(ms[0]) && fits(ms[1]) && fits(ms[2]);
    assert AnyWhere(ms, fits);
    var w := Score(0.0, 0.0, 0.01);
    var u := UtilityFor(w, prompt, "chat/general");
    UtilityWithoutCost(w, prompt, "chat/general", ms[0]);
    UtilityWithoutCost(w, prompt, "chat/general", ms[1]);
    UtilityWithoutCost(w, prompt, "chat/general", ms[2]);
    assert u(ms[0]) == -0.001 && u(ms[1]) == -0.005 && u(ms[2]) == -0.009;
    FirstOfThreeIsFirstMax(ms, fits, u);
    FirstMaxUnique(ms, fits, u, ScorePick(w, prompt, "chat/general", ms, b).index, 0);
    ChooseReportsPick(w, prompt, "chat/general", ms, b);
  }

  /** The utilities under latency weight 0.01 of the three test models on a
      reasoning task: the bonus outweighs the premium model's latency. */
  lemma ReasoningUtilities(prompt: string)
    ensures Utility(Score(0.0, 0.0, 0.01), prompt, "reasoning", TestModels()[0]) == 0.029
    ensures Utility(Score(0.0, 0.0, 0.01), prompt, "reasoning", TestModels()[1]) == 0.035
    ensures Utility(Score(0.0, 0.0, 0.01), prompt, "reasoning", TestModels()[2]) == 0.0375
  {
    var w := Score(0.0, 0.0, 0.01);
    var ms := TestModels();
    UtilityWithoutCost(w, prompt, "reasoning", ms[0]);
    UtilityWithoutCost(w, prompt, "reasoning", ms[1]);
    UtilityWithoutCost(w, prompt, "reasoning", ms[2]);
  }

  /** The reasoning bonus of 0.05 per quality point is counted: under the
      same weights that make the fast model win a general task, the bonus
      makes the premium model win the same prompt as a reasoning task. */
  lemma ReasoningBonusFavoursQuality(prompt: string)
    requires WordCount(prompt) <= 1000
    ensures Choose(Score(0.0, 0.0, 0.01), prompt, "reasoning", TestModels(), Budget(1.0, 2000.0)).value.modelName == "premium"
  {
    var ms := TestModels();
    var b := Budget(1.0, 2000.0);
    var fits := FitsIn(prompt, b);
    ShortPromptCosts(prompt);
    assert fits(ms[0]) && fits(ms[1]) && fits(ms[2]);
    assert AnyWhere(ms, fits);
    var w := Score(0.0, 0.0, 0.01);
    var u := UtilityFor(w, prompt, "reasoning");
    ReasoningUtilities(prompt);
    assert fits(ms[2]) && u(ms[0]) < u(ms[2]) && u(ms[1]) < u(ms[2]);
    LastOfThreeIsFirstMax(ms, fits, u);
    FirstMaxUnique(ms, fits, u, ScorePick(w, prompt, "reasoning", ms, b).index, 2);
    ChooseReportsPick(w, prompt, "reasoning", ms, b);
  }

  /** Seven letters separated by the information separator U+001C are seven
      words to `str.split()`, so the estimate is 21 tokens, above the floor. */
  lemma SeparatedLettersTokens()
    ensures WordCount("a\U{1c}b\U{1c}c\U{1c}d\U{1c}e\U{1c}f\U{1c}g") == 7
    ensures TokenEstimate("a\U{1c}b\U{1c}c\U{1c}d\U{1c}e\U{1c}f\U{1c}g") == 21
  {
    var s := "a";
    assert WordCount(s) == 1;
    SeparatorAddsWord(s, 'b');
    s := s + ['\U{1c}', 'b'];
    SeparatorAddsWord(s, 'c');
    s := s + ['\U{1c}', 'c'];
    SeparatorAddsWord(s, 'd');
    s := s + ['\U{1c}', 'd'];
    SeparatorAddsWord(s, 'e');
    s := s + ['\U{1c}', 'e'];
    SeparatorAddsWord(s, 'f');
    s := s + ['\U{1c}', 'f'];
    SeparatorAddsWord(s, 'g');
    s := s + ['\U{1c}', 'g'];
    assert s == "a\U{1c}b\U{1c}c\U{1c}d\U{1c}e\U{1c}f\U{1c}g";
  }

  /** A separator then a letter after a text ending in a letter adds one word. */
  lemma SeparatorAddsWord(s: string, c: char)
    requires |s| > 0 && !IsSpace(s[|s| - 1]) && !IsSpace(c)
    ensures WordCount(s + ['\U{1c}', c]) == WordCount(s) + 1
  {
    var u := ['\U{1c}', c];
    assert u[..1] == ['\U{1c}'];
    assert WordCount(u) == 1;
    WordCountAppend(s, u);
  }
}
