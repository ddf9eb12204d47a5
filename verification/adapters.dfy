/** `adapters.py`: the two backends a routed prompt can be sent to. The mock
    adapter answers offline with a latency and a cost derived from the prompt
    and the model; the OpenAI adapter is a stub that only insists on an API key.
    Everything the adapters read from outside the process (a SHA-256 digest,
    environment variables, a clock) is an explicit parameter here. */
module Adapters {
  import opened Results
  import opened Models
  import opened Text
  import opened Policies

  /** A 32-bit unsigned value: eight hexadecimal digits. */
  type Seed32 = n: int | 0 <= n < 0x1_0000_0000

  type NonNegReal = r: real | r >= 0.0

  /** The endpoint used when `OPENAI_BASE_URL` is not set. */
  const DEFAULT_BASE_URL: string := "https://api.openai.com/v1"

  /** What the adapters observe outside the process:
      `digest(s)` is the first eight hex digits of SHA-256 of `s`, read as a
      number; `apiKey` and `baseUrl` are the environment variables
      `OPENAI_API_KEY` and `OPENAI_BASE_URL`; `elapsedMs` is what the stub's
      clock measures. */
  datatype Env = Env(
    digest: string -> Seed32,
    apiKey: Option<string>,
    baseUrl: Option<string>,
    elapsedMs: NonNegReal)

  /** The two adapter classes. */
  datatype Adapter = Mock | OpenAI

  /** Python's `int()` on a float: truncation toward zero. */
  function Trunc(x: real): (t: int)
    ensures x >= 0.0 ==> t as real <= x < t as real + 1.0
    ensures x < 0.0 ==> t as real - 1.0 < x <= t as real
  {
    if x >= 0.0 then x.Floor else -((-x).Floor)
  }

  /** The mock never answers faster than this. */
  const MIN_LATENCY_MS: int := 30

  /** The mock's token estimate is clamped to this range. */
  const MAX_MOCK_TOKENS: nat := 4000

  /** The seed the mock derives from the prompt and the model name. */
  function MockSeed(env: Env, prompt: string, m: ModelSpec): Seed32 {
    env.digest(prompt + ":" + m.name)
  }

  /** `max(20, min(4000, len(prompt.split()) * 3))`. */
  function MockTokens(prompt: string): (n: nat)
    ensures MIN_TOKENS <= n <= MAX_MOCK_TOKENS
    ensures n <= TokenEstimate(prompt)
    ensures n == TokenEstimate(prompt) <==> TokenEstimate(prompt) <= MAX_MOCK_TOKENS
    ensures TokenEstimate(prompt) > MAX_MOCK_TOKENS ==> n == MAX_MOCK_TOKENS
  {
    var capped := if 3 * WordCount(prompt) < MAX_MOCK_TOKENS then 3 * WordCount(prompt) else MAX_MOCK_TOKENS;
    if capped > MIN_TOKENS then capped else MIN_TOKENS
  }

  /** `max(30, int(expected_latency_ms + seed % 90 - 45))`. */
  function MockLatency(expectedMs: real, seed: Seed32): (ms: int)
    ensures ms >= MIN_LATENCY_MS
    ensures ms >= Trunc(expectedMs + (seed % 90) as real - 45.0)
    ensures ms == MIN_LATENCY_MS || ms == Trunc(expectedMs + (seed % 90) as real - 45.0)
    ensures ms <= MIN_LATENCY_MS || (ms as real <= expectedMs + 44.0 && ms as real > expectedMs - 46.0)
  {
    var t := Trunc(expectedMs + (seed % 90) as real - 45.0);
    if t > MIN_LATENCY_MS then t else MIN_LATENCY_MS
  }

  /** `MockAdapter.generate`: never fails; answers in the model's name with a
      latency jittered around the model's, at the clamped token price, and
      records the token estimate and the seed. */
  function MockGenerate(env: Env, prompt: string, m: ModelSpec): (r: ModelResponse)
    ensures r.modelName == m.name
    ensures r.latencyMs == MockLatency(m.expectedLatencyMs, MockSeed(env, prompt, m)) as real
    ensures r.estimatedCost == MockTokens(prompt) as real / 1000.0 * m.expectedCostPer1k
    ensures r.latencyMs >= MIN_LATENCY_MS as real
    ensures r.latencyMs <= MIN_LATENCY_MS as real || r.latencyMs <= m.expectedLatencyMs + 44.0
    ensures r.latencyMs > m.expectedLatencyMs - 46.0
    ensures r.text == MockReply(m.name, m.expectedQuality, MockTokens(prompt))
    ensures r.metadata.Keys == {"token_estimate", "seed"}
    ensures r.metadata["token_estimate"] == MInt(MockTokens(prompt))
    ensures r.metadata["seed"] == MInt(MockSeed(env, prompt, m))
    ensures m.expectedCostPer1k >= 0.0 ==> 0.0 <= r.estimatedCost <= EstimateCost(prompt, m)
  {
    var seed := MockSeed(env, prompt, m);
    var tokens := MockTokens(prompt);
    var cost := tokens as real / 1000.0 * m.expectedCostPer1k;
    MockCostWithinEstimate(prompt, m);
    ModelResponse(
      MockReply(m.name, m.expectedQuality, tokens),
      m.name,
      MockLatency(m.expectedLatencyMs, seed) as real,
      cost,
      map["token_estimate" := MInt(tokens), "seed" := MInt(seed)])
  }

  /** The clamped token count never prices above the policies' estimate. */
  lemma MockCostWithinEstimate(prompt: string, m: ModelSpec)
    ensures m.expectedCostPer1k >= 0.0 ==>
      0.0 <= MockTokens(prompt) as real / 1000.0 * m.expectedCostPer1k <= EstimateCost(prompt, m)
  {
    if m.expectedCostPer1k >= 0.0 {
      CostGrowsWithTokens(MockTokens(prompt), TokenEstimate(prompt), m.expectedCostPer1k);
    }
  }

  lemma CostGrowsWithTokens(a: nat, b: nat, rate: real)
    requires a <= b && rate >= 0.0
    ensures 0.0 <= a as real / 1000.0 * rate <= b as real / 1000.0 * rate
  {
  }

  /** The mock charges what the policies estimated, up to 1333 words; beyond
      that its 4000-token cap makes it charge strictly less whenever the rate
      is positive. */
  lemma MockCostVersusEstimate(env: Env, prompt: string, m: ModelSpec)
    ensures WordCount(prompt) <= 1333 ==> MockGenerate(env, prompt, m).estimatedCost == EstimateCost(prompt, m)
    ensures WordCount(prompt) > 1333 && m.expectedCostPer1k > 0.0 ==>
      MockGenerate(env, prompt, m).estimatedCost < EstimateCost(prompt, m)
    ensures WordCount(prompt) > 1333 ==> MockGenerate(env, prompt, m).estimatedCost == 4.0 * m.expectedCostPer1k
  {
    if WordCount(prompt) > 1333 && m.expectedCostPer1k > 0.0 {
      var a := MockTokens(prompt) as real;
      var b := TokenEstimate(prompt) as real;
      assert a < b;
      assert MockGenerate(env, prompt, m).estimatedCost == a / 1000.0 * m.expectedCostPer1k;
      assert EstimateCost(prompt, m) == b / 1000.0 * m.expectedCostPer1k;
    }
  }

  /** `OPENAI_BASE_URL`, defaulting to the public endpoint. */
  function BaseUrl(env: Env): string {
    if env.baseUrl.Some? then env.baseUrl.value else DEFAULT_BASE_URL
  }

  /** `not self.api_key`: the variable is unset or empty. */
  predicate KeyMissing(env: Env) {
    env.apiKey.None? || |env.apiKey.value| == 0
  }

  /** `OpenAIAdapter.generate`: refuses without an API key; otherwise a free,
      stubbed answer in the model's name, timed by the clock. */
  function OpenAIGenerate(env: Env, prompt: string, m: ModelSpec): (r: Result<ModelResponse>)
    ensures r.Err? <==> env.apiKey.None? || env.apiKey == Some("")
    ensures r.Err? ==> r.error == MissingApiKey
    ensures r.Ok? ==> r.value.modelName == m.name && r.value.text == StubReply
    ensures r.Ok? ==> r.value.estimatedCost == 0.0 && r.value.latencyMs >= 0.0
    ensures r.Ok? ==> r.value.metadata == map["base_url" := MStr(BaseUrl(env)), "stub" := MBool(true)]
  {
    if KeyMissing(env) then Err(MissingApiKey)
    else Ok(ModelResponse(StubReply, m.name, env.elapsedMs, 0.0,
                          map["base_url" := MStr(BaseUrl(env)), "stub" := MBool(true)]))
  }

  /** `DecisionRouter._adapter`: the provider "openai" selects the OpenAI
      adapter; every other provider string, unknown ones included, the mock. */
  function AdapterFor(provider: string): (a: Adapter)
    ensures a == OpenAI <==> provider == "openai"
  {
    if provider == "openai" then OpenAI else Mock
  }

  /** `BaseAdapter.generate`, dispatched on the adapter. Only the OpenAI
      adapter can fail, and only for want of a key. */
  function Generate(a: Adapter, env: Env, prompt: string, m: ModelSpec): (r: Result<ModelResponse>)
    ensures r.Err? <==> a == OpenAI && KeyMissing(env)
    ensures r.Err? ==> r.error == MissingApiKey
    ensures r.Ok? ==> r.value.modelName == m.name
  {
    match a
    case Mock => Ok(MockGenerate(env, prompt, m))
    case OpenAI => OpenAIGenerate(env, prompt, m)
  }

  /** The stub never looks at the prompt: two prompts get the same answer,
      or the same refusal, from one environment. */
  lemma OpenAIIgnoresPrompt(env: Env, p: string, q: string, m: ModelSpec)
    ensures OpenAIGenerate(env, p, m) == OpenAIGenerate(env, q, m)
  {
  }

  /** Whichever adapter answers, with a non-negative rate it charges no more
      than the policies estimated when choosing the model, and nothing
      negative. */
  lemma GenerateCostWithinEstimate(a: Adapter, env: Env, prompt: string, m: ModelSpec)
    ensures m.expectedCostPer1k >= 0.0 && Generate(a, env, prompt, m).Ok? ==>
      0.0 <= Generate(a, env, prompt, m).value.estimatedCost <= EstimateCost(prompt, m)
  {
    if m.expectedCostPer1k >= 0.0 && a == OpenAI {
      EstimateCostBounds(prompt, m);
    }
  }
}
