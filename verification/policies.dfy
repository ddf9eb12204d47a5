/** `policies.py`: the shared cost estimate and the two selection policies.
    Each policy filters the models by the cost and latency budget, picks the
    first extremal candidate by its own key, and falls back to the first
    cheapest model (by per-1k rate) when no model fits the budget. */
module Policies {
  import opened Results
  import opened Models
  import opened Text
  import opened Select

  /** The smallest token estimate for any prompt. */
  const MIN_TOKENS: nat := 20

  /** `max(20, len(prompt.split()) * 3)`. */
  function TokenEstimate(prompt: string): (n: nat)
    ensures n >= MIN_TOKENS && n >= 3 * WordCount(prompt)
    ensures n == MIN_TOKENS || n == 3 * WordCount(prompt)
  {
    if 3 * WordCount(prompt) > MIN_TOKENS then 3 * WordCount(prompt) else MIN_TOKENS
  }

  /** `token_estimate / 1000 * model.expected_cost_per_1k_tokens`. */
  function EstimateCost(prompt: string, m: ModelSpec): (c: real)
  {
    TokenEstimate(prompt) as real / 1000.0 * m.expectedCostPer1k
  }

  /** A non-negative rate gives a cost of at least the 20-token floor's. */
  lemma EstimateCostBounds(prompt: string, m: ModelSpec)
    requires m.expectedCostPer1k >= 0.0
    ensures EstimateCost(prompt, m) >= 0.0
    ensures EstimateCost(prompt, m) >= m.expectedCostPer1k / 50.0
    ensures EstimateCost(prompt, m) >= (3 * WordCount(prompt)) as real / 1000.0 * m.expectedCostPer1k
  {
    PriceBounds(EstimateCost(prompt, m), TokenEstimate(prompt), WordCount(prompt), m.expectedCostPer1k);
  }

  /** The price `c` of `n` tokens, `n` at least 20 and at least three per
      word of a `w`-word prompt, at a non-negative rate. */
  lemma PriceBounds(c: real, n: nat, w: nat, rate: real)
    requires c == n as real / 1000.0 * rate
    requires n >= 20 && n >= 3 * w && rate >= 0.0
    ensures c >= 0.0
    ensures c >= rate / 50.0
    ensures c >= (3 * w) as real / 1000.0 * rate
  {
    var x := n as real;
    assert c - rate / 50.0 == (x - 20.0) / 1000.0 * rate;
    assert c - (3 * w) as real / 1000.0 * rate == (x - (3 * w) as real) / 1000.0 * rate;
  }

  /** The per-call ceilings read from the configuration. */
  datatype Budget = Budget(maxCost: real, maxLatencyMs: real)

  /** The filter both policies apply before choosing. */
  predicate Fits(prompt: string, budget: Budget, m: ModelSpec) {
    EstimateCost(prompt, m) <= budget.maxCost && m.expectedLatencyMs <= budget.maxLatencyMs
  }

  // Named function values, so that contracts and bodies mention the same terms.

  function FitsIn(prompt: string, budget: Budget): ModelSpec -> bool {
    m => Fits(prompt, budget, m)
  }

  function Always(): ModelSpec -> bool {
    m => true
  }

  function Quality(m: ModelSpec): real { m.expectedQuality }

  function Latency(m: ModelSpec): real { m.expectedLatencyMs }

  function Rate(m: ModelSpec): real { m.expectedCostPer1k }

  function CostFor(prompt: string): ModelSpec -> real {
    m => EstimateCost(prompt, m)
  }

  /** The quality the rules policy aims at by default. */
  const TARGET_QUALITY: real := 0.8

  /** `abs(m.expected_quality - 0.8)`. */
  function QualityGap(m: ModelSpec): (g: real)
    ensures g >= 0.0
    ensures g == m.expectedQuality - TARGET_QUALITY || g == TARGET_QUALITY - m.expectedQuality
    ensures g == 0.0 <==> m.expectedQuality == TARGET_QUALITY
  {
    if m.expectedQuality >= TARGET_QUALITY then m.expectedQuality - TARGET_QUALITY
    else TARGET_QUALITY - m.expectedQuality
  }

  /** The two interchangeable strategies; the score policy carries its weights. */
  datatype Policy =
    | Rules
    | Score(qualityWeight: real, costWeight: real, latencyWeight: real)
  {
    /** The class attribute `name`. */
    function Name(): string {
      if Rules? then "rules" else "score"
    }
  }

  const RULES_FALLBACK: string := "No candidate met budget; picked cheapest model."
  const RULES_CODE: string := "Code tasks prioritize quality within budget."
  const RULES_WRITING: string := "Short writing prompt prioritized low latency."
  const RULES_DATA: string := "Data tasks default to lower estimated cost."
  const RULES_BALANCED: string := "Balanced default selection by expected quality target."
  const SCORE_FALLBACK: string := "No model fit budget constraints; used cheapest fallback."

  /** Writing prompts shorter than this many characters are routed for latency. */
  const SHORT_WRITING: nat := 400

  /** Bonus weight on quality for reasoning tasks. */
  const REASONING_BONUS: real := 0.05

  /** The score policy's utility of one model that fits the budget. */
  function Utility(w: Policy, prompt: string, task: string, m: ModelSpec): real
    requires w.Score?
  {
    var base := w.qualityWeight * m.expectedQuality
      - w.costWeight * EstimateCost(prompt, m)
      - w.latencyWeight * (m.expectedLatencyMs / 1000.0);
    if task == "reasoning" then base + REASONING_BONUS * m.expectedQuality else base
  }

  function UtilityFor(w: Policy, prompt: string, task: string): ModelSpec -> real
    requires w.Score?
  {
    m => Utility(w, prompt, task, m)
  }

  /** A chosen index together with the rationale that goes with it. */
  datatype Pick = Pick(index: nat, rationale: Rationale)

  /** `min(models, key=lambda m: m.expected_cost_per_1k_tokens)`. */
  function Cheapest(models: seq<ModelSpec>): (k: nat)
    requires |models| > 0
    ensures IsFirstMinWhere(models, Always(), Rate, k)
  {
    assert Always()(models[0]);
    FirstMinWhere(models, Always(), Rate).value
  }

  /** The rules policy's choice on a non-empty model list. */
  function RulesPick(prompt: string, task: string, models: seq<ModelSpec>, budget: Budget): (p: Pick)
    requires |models| > 0
    ensures p.index < |models|
    ensures !AnyWhere(models, FitsIn(prompt, budget)) ==>
      IsFirstMinWhere(models, Always(), Rate, p.index) && p.rationale == Fixed(RULES_FALLBACK)
    ensures AnyWhere(models, FitsIn(prompt, budget)) ==> Fits(prompt, budget, models[p.index])
    ensures AnyWhere(models, FitsIn(prompt, budget)) && task == "code" ==>
      IsFirstMaxWhere(models, FitsIn(prompt, budget), Quality, p.index) && p.rationale == Fixed(RULES_CODE)
    ensures AnyWhere(models, FitsIn(prompt, budget)) && task == "writing" && |prompt| < SHORT_WRITING ==>
      IsFirstMinWhere(models, FitsIn(prompt, budget), Latency, p.index) && p.rationale == Fixed(RULES_WRITING)
    ensures AnyWhere(models, FitsIn(prompt, budget)) && task == "data" ==>
      IsFirstMinWhere(models, FitsIn(prompt, budget), CostFor(prompt), p.index) && p.rationale == Fixed(RULES_DATA)
    ensures (AnyWhere(models, FitsIn(prompt, budget)) && task != "code" && task != "data"
             && !(task == "writing" && |prompt| < SHORT_WRITING)) ==>
      IsFirstMinWhere(models, FitsIn(prompt, budget), QualityGap, p.index) && p.rationale == Fixed(RULES_BALANCED)
  {
    var fits := FitsIn(prompt, budget);
    if !AnyWhere(models, fits) then Pick(Cheapest(models), Fixed(RULES_FALLBACK))
    else if task == "code" then Pick(FirstMaxWhere(models, fits, Quality).value, Fixed(RULES_CODE))
    else if task == "writing" && |prompt| < SHORT_WRITING then
      Pick(FirstMinWhere(models, fits, Latency).value, Fixed(RULES_WRITING))
    else if task == "data" then Pick(FirstMinWhere(models, fits, CostFor(prompt)).value, Fixed(RULES_DATA))
    else Pick(FirstMinWhere(models, fits, QualityGap).value, Fixed(RULES_BALANCED))
  }

  /** The score policy's choice on a non-empty model list. */
  function ScorePick(w: Policy, prompt: string, task: string, models: seq<ModelSpec>, budget: Budget): (p: Pick)
    requires w.Score? && |models| > 0
    ensures p.index < |models|
    ensures !AnyWhere(models, FitsIn(prompt, budget)) ==>
      IsFirstMinWhere(models, Always(), Rate, p.index) && p.rationale == Fixed(SCORE_FALLBACK)
    ensures AnyWhere(models, FitsIn(prompt, budget)) ==>
      && IsFirstMaxWhere(models, FitsIn(prompt, budget), UtilityFor(w, prompt, task), p.index)
      && p.rationale == UtilityScore(Utility(w, prompt, task, models[p.index]),
                                     w.qualityWeight, w.costWeight, w.latencyWeight)
  {
    var fits := FitsIn(prompt, budget);
    if !AnyWhere(models, fits) then Pick(Cheapest(models), Fixed(SCORE_FALLBACK))
    else
      var k := FirstMaxWhere(models, fits, UtilityFor(w, prompt, task)).value;
      Pick(k, UtilityScore(Utility(w, prompt, task, models[k]), w.qualityWeight, w.costWeight, w.latencyWeight))
  }

  /** The pick of whichever policy is configured. */
  function PickFor(policy: Policy, prompt: string, task: string, models: seq<ModelSpec>, budget: Budget): (p: Pick)
    requires |models| > 0
    ensures p.index < |models|
  {
    if policy.Rules? then RulesPick(prompt, task, models, budget)
    else ScorePick(policy, prompt, task, models, budget)
  }

  /** The decision reports a model's own fields and the policy's cost estimate for it. */
  predicate DescribesModel(d: RoutingDecision, prompt: string, m: ModelSpec) {
    && d.modelName == m.name
    && d.expectedQuality == m.expectedQuality
    && d.expectedLatencyMs == m.expectedLatencyMs
    && d.expectedCost == EstimateCost(prompt, m)
  }

  /** `BasePolicy.choose`: fails only on an empty model list; otherwise
      describes one of the listed models, within budget whenever any model is. */
  function Choose(policy: Policy, prompt: string, task: string, models: seq<ModelSpec>, budget: Budget)
    : (r: Result<RoutingDecision>)
    ensures r.Err? <==> |models| == 0
    ensures r.Err? ==> r.error == NoModelsAvailable
    ensures r.Ok? ==> r.value.policy == policy.Name() && r.value.taskType == task
    ensures r.Ok? ==> exists k :: 0 <= k < |models| && DescribesModel(r.value, prompt, models[k])
    ensures r.Ok? && AnyWhere(models, FitsIn(prompt, budget)) ==>
      r.value.expectedCost <= budget.maxCost && r.value.expectedLatencyMs <= budget.maxLatencyMs
  {
    if |models| == 0 then Err(NoModelsAvailable)
    else
      var p := PickFor(policy, prompt, task, models, budget);
      var m := models[p.index];
      Ok(RoutingDecision(m.name, policy.Name(), task, p.rationale,
                         m.expectedQuality, EstimateCost(prompt, m), m.expectedLatencyMs))
  }

  /** On a non-empty list the decision describes exactly the model the
      policy picked, with the rationale that goes with the pick. */
  lemma ChooseReportsPick(policy: Policy, prompt: string, task: string, models: seq<ModelSpec>, budget: Budget)
    requires |models| > 0
    ensures Choose(policy, prompt, task, models, budget).Ok?
    ensures DescribesModel(Choose(policy, prompt, task, models, budget).value, prompt,
                           models[PickFor(policy, prompt, task, models, budget).index])
    ensures Choose(policy, prompt, task, models, budget).value.rationale ==
      PickFor(policy, prompt, task, models, budget).rationale
  {
  }
}
