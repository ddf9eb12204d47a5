/** The frozen records of `models.py`. Python floats are modelled as `real`
    (no IEEE rounding); `Any`-valued metadata as a small tagged value. */
module Models {

  /** A metadata value: the adapters store integers, strings and booleans. */
  datatype MetaValue = MInt(i: int) | MStr(s: string) | MBool(b: bool)

  type Metadata = map<string, MetaValue>

  /** Default context size of a model spec. */
  const DEFAULT_MAX_CONTEXT_TOKENS: int := 8192

  /** One backend model and its declared characteristics. */
  datatype ModelSpec = ModelSpec(
    name: string,
    provider: string,
    expectedQuality: real,
    expectedCostPer1k: real,
    expectedLatencyMs: real,
    maxContextTokens: int := DEFAULT_MAX_CONTEXT_TOKENS,
    metadata: Metadata := map[])

  /** The reason a policy gives for its choice. The score policy's reason is
      an f-string with a `.3f` utility; its rendering is not modelled, the
      values it shows are kept instead. */
  datatype Rationale =
    | Fixed(text: string)
    | UtilityScore(utility: real, qualityWeight: real, costWeight: real, latencyWeight: real)

  /** The outcome of a policy: exactly the seven fields of the Python record. */
  datatype RoutingDecision = RoutingDecision(
    modelName: string,
    policy: string,
    taskType: string,
    rationale: Rationale,
    expectedQuality: real,
    expectedCost: real,
    expectedLatencyMs: real)

  /** The text an adapter answers with. The mock's f-string renders the
      quality with `.2f`; the rendering is not modelled, its inputs are kept. */
  datatype ReplyText =
    | MockReply(modelName: string, quality: real, tokenEstimate: int)
    | StubReply

  /** What an adapter returns for one prompt. */
  datatype ModelResponse = ModelResponse(
    text: ReplyText,
    modelName: string,
    latencyMs: real,
    estimatedCost: real,
    metadata: Metadata := map[])

  /** Omitted optional fields take the documented defaults. */
  lemma ModelSpecDefaults(name: string, provider: string, q: real, c: real, l: real)
    ensures ModelSpec(name, provider, q, c, l).maxContextTokens == 8192
    ensures ModelSpec(name, provider, q, c, l).metadata == map[]
  {
  }

  lemma ModelResponseDefaults(text: ReplyText, name: string, l: real, c: real)
    ensures ModelResponse(text, name, l, c).metadata == map[]
  {
  }
}
