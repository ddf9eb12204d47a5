# ai-decision-router: the routing core in Dafny

This project models the routing core of `ai_decision_router`. The router takes
a prompt and does four things:

1. It classifies the prompt into a task type (`code`, `data`, `reasoning`,
   `writing` or `chat/general`).
2. It lets a policy choose one of the registered models under a cost and
   latency budget. The rules policy uses a per-task rule. The score policy
   maximises a weighted utility.
3. It sends the prompt to that model's adapter. The offline mock adapter
   answers every prompt of Unicode scalar values for every model with a
   finite latency. The OpenAI stub needs an API key.
4. It caches the result per prompt and appends a row to a trace.

The modules follow the source files:

| module | source |
|---|---|
| `Results` | exceptions become `Err` values |
| `Models` | `models.py` |
| `Text` | `str.lower`, `str.strip`, `str.split`, `\b` |
| `Select` | `max`, `min` and `sorted(...)[0]` with a key |
| `Classifier` | `classifier.py` |
| `Policies` | `policies.py` |
| `Adapters` | `adapters.py` |
| `Router` | `router.py`, with the configuration defaults of `config.py` and the on/off switch of `tracing.py` |

`ClassifierExamples`, `PolicyExamples` and `RouterExamples` prove, for
concrete prompts and model lists, the outcomes the repository's own test
files assert, along with a few more cases.

Here is how the model represents the source:

- **Numbers.** Python floats are modelled as `real`. Python's `int()` on a
  float is modelled as truncation toward zero.
- **Registry.** The registry dict is an association list. A repeated key keeps
  its first position and takes the last value, as a dict does.
- **Router state.** The cache and the trace are an explicit `State` value. It
  is threaded through `Run` and returned with the result.
- **Outside inputs.** The SHA-256 digest, the environment variables and the
  clock are fields of an `Env` parameter.

## Model

| member | source | states |
|---|---|---|
| `Text.Lower` | src/ai_decision_router/classifier.py:9 | lower-casing keeps the length and maps each character to its lower-case form |
| `Text.LowerOfUpper` | src/ai_decision_router/classifier.py:9 | a text whose ASCII letters are upper-cased lower-cases to the same text as the original, so ASCII case is forgotten |
| `Text.StripIsSlice` | src/ai_decision_router/classifier.py:9 | `strip()` removes a blank prefix and a blank suffix and keeps the middle unchanged |
| `Text.Words` | src/ai_decision_router/policies.py:24 | `str.split()` yields non-empty words containing no whitespace |
| `Text.WordCountAppend` | src/ai_decision_router/policies.py:24 | the word count of a concatenation is the sum of the halves' counts, minus one when the cut splits a word |
| `Text.WordCountIsSplitLength` | src/ai_decision_router/policies.py:24 | the word count used for token estimates equals the length of `prompt.split()` |
| `Models.ModelSpecDefaults` | src/ai_decision_router/models.py:14-15 | a model spec built without the optional fields has a context of 8192 tokens and empty metadata |
| `Models.ModelResponseDefaults` | src/ai_decision_router/models.py:35 | a response built without metadata has empty metadata |
| `Select.FirstMaxWhere` | src/ai_decision_router/policies.py:63 | `max` over the filtered list is absent exactly when nothing passes the filter; otherwise it is the first element whose key is maximal |
| `Select.FirstMinWhere` | src/ai_decision_router/policies.py:66-72 | `min` and the stable `sorted(...)[0]` give the first element whose key is minimal among those passing the filter |
| `Policies.TokenEstimate` | src/ai_decision_router/policies.py:24 | the token estimate is at least 20 and at least three per word, and equals one of the two |
| `Policies.EstimateCostBounds` | src/ai_decision_router/policies.py:23-25 | with a non-negative rate, the cost estimate is non-negative and at least the cost of 20 tokens and of three tokens per word |
| `Policies.QualityGap` | src/ai_decision_router/policies.py:72 | the gap is `abs(quality - 0.8)`: one of the two differences with the 0.8 target, non-negative, and zero only at the target |
| `Policies.Cheapest` | src/ai_decision_router/policies.py:50 | the fallback is the first model of minimal per-1k rate over the whole list |
| `Policies.RulesPick` | src/ai_decision_router/policies.py:43-73 | rules policy: with no model in budget, the cheapest-rate fallback; otherwise a model within budget chosen by task (code: first of highest quality; short writing under 400 characters: first of lowest latency; data: first of lowest estimate; else: first nearest quality 0.8), each with its fixed rationale |
| `Policies.ScorePick` | src/ai_decision_router/policies.py:105-143 | score policy: with no model in budget, the cheapest-rate fallback; otherwise the first model in budget of maximal utility, reporting that utility and the weights |
| `Policies.ChooseReportsPick` | src/ai_decision_router/policies.py:49-83 | on a non-empty list the decision names the model the policy picked, with that model's quality, latency and own cost estimate, and the rationale that goes with the pick |
| `Policies.Choose` | src/ai_decision_router/policies.py:39-83 | `choose` fails with "no models" exactly on an empty list; otherwise it reports the policy name and the task, describes one of the given models with its own estimate, and stays within budget whenever some model fits |
| `Classifier.SearchFindsMatch` | src/ai_decision_router/classifier.py:18 | `re.search` succeeds exactly when the pattern matches at some position, whole-word patterns needing a `\b` boundary at both ends |
| `Classifier.AnySearchFindsOne` | src/ai_decision_router/classifier.py:18-25 | `any(...)` over a pattern list holds exactly when one of its patterns is found |
| `Classifier.Classify` | src/ai_decision_router/classifier.py:8-11 | classification is total, always one of `TASK_TYPES`, and general chat for a blank prompt |
| `Classifier.ClassifyByPriority` | src/ai_decision_router/classifier.py:8-26 | each label holds exactly when its keyword group occurs in the lower-cased prompt and no higher group (order code, data, reasoning, writing) does; general chat when none occurs |
| `Classifier.ClassifyIgnoresCase` | src/ai_decision_router/classifier.py:9 | changing the case of the prompt's ASCII letters, all to upper or all to lower, never changes its label |
| `Classifier.SearchSplits` | src/ai_decision_router/classifier.py:13-16 | a keyword without spaces is found in two words joined by a space exactly when it is found in one of them |
| `Classifier.SearchJoin` | src/ai_decision_router/classifier.py:13-16 | a keyword without spaces is found in a space-joined sentence exactly when it is found in one of its words |
| `ClassifierExamples.DebugPythonFunction` | tests/test_classifier.py:5 | "Debug this python function" is a code task |
| `ClassifierExamples.ProveLogicStepByStep` | tests/test_classifier.py:6 | "Prove this logic step by step" is a reasoning task |
| `ClassifierExamples.RunSqlQuery` | tests/test_classifier.py:7 | "Run SQL query on table data" is a data task |
| `ClassifierExamples.RewriteEssay` | tests/test_classifier.py:8 | "Rewrite this essay with better tone" is a writing task |
| `ClassifierExamples.HelloThere` | tests/test_classifier.py:9 | "Hello there" is general chat |
| `ClassifierExamples.DatabaseSchema` | src/ai_decision_router/classifier.py:15 | "data" inside "database" is no whole word, so "Describe the database schema" is general chat |
| `ClassifierExamples.FunctionalProgramming` | src/ai_decision_router/classifier.py:13 | "function" inside "functional" is no whole word, so "Explain functional programming" is general chat |
| `ClassifierExamples.FencedSql` | src/ai_decision_router/classifier.py:13-21 | in "```SQL```" the data group matches too, since the backticks leave "sql" a whole word, yet the label is code: the fence matches without word boundaries and the code group is tested first |
| `Adapters.Trunc` | src/ai_decision_router/adapters.py:20 | `int()` truncates toward zero: within one below a non-negative value and within one above a negative one |
| `Adapters.MockTokens` | src/ai_decision_router/adapters.py:21 | the mock's token count lies in [20, 4000], never exceeds the policies' estimate, equals it exactly when that estimate is at most 4000, and is exactly 4000 above that |
| `Adapters.MockLatency` | src/ai_decision_router/adapters.py:20 | the mock latency is the larger of 30 ms and the truncated jittered latency `int(expected + seed % 90 - 45)`; above that floor it is above the model's latency less 46 ms and at most 44 ms above it: the jitter is -45..+44 ms, and truncating toward zero can lose up to one more millisecond below |
| `Adapters.MockGenerate` | src/ai_decision_router/adapters.py:18-33 | the mock never fails; it answers in the model's name with the latency `MockLatency` gives for the prompt's seed, at the price of its clamped token count times the rate per thousand, records exactly the token count and the seed as metadata, and with a non-negative rate costs between zero and the policies' estimate |
| `Adapters.MockCostWithinEstimate` | src/ai_decision_router/adapters.py:21-22 | with a non-negative rate, the mock's price for its clamped token count lies between zero and the policies' cost estimate for the same prompt |
| `Adapters.GenerateCostWithinEstimate` | src/ai_decision_router/adapters.py:17-56 | whichever adapter answers, with a non-negative rate its cost lies between zero and the estimate the policies priced the model at |
| `Adapters.OpenAIIgnoresPrompt` | src/ai_decision_router/adapters.py:43-56 | the OpenAI stub never reads the prompt: any two prompts get the same answer, or the same missing-key refusal, from one environment and model |
| `Adapters.MockCostVersusEstimate` | src/ai_decision_router/adapters.py:21-22 | the mock charges exactly the policies' estimate up to 1333 words, and beyond that exactly 4000 tokens' worth, strictly less when the rate is positive |
| `Adapters.Generate` | src/ai_decision_router/adapters.py:11-14 | an adapter fails only when it is OpenAI without a key, with the missing-key error, and otherwise answers for the model it was given |
| `Router.Find` | src/ai_decision_router/router.py:62 | a registry lookup finds nothing exactly when no entry has the name; otherwise it finds a registered spec with that name |
| `Router.Put` | src/ai_decision_router/router.py:16-26 | a dict store keeps names unique, keeps every existing key's position, and appends a new key at the end |
| `Router.PutFind` | src/ai_decision_router/router.py:16-26 | after a store, the stored name maps to the new spec and every other name to what it mapped to before |
| `Router.Registry` | src/ai_decision_router/router.py:16-26 | the registry built from the configuration never holds two models with one name |
| `Router.RegistryLookup` | src/ai_decision_router/router.py:16-26 | a name is registered exactly when some configured model has it, and maps to the spec of the last configured model with that name, with empty metadata |
| `Router.RegistryKeepsOrder` | src/ai_decision_router/router.py:16-26 | with distinct configured names, the registry lists the specs in configured order |
| `Router.FindUnique` | src/ai_decision_router/router.py:62 | looking up the name of any registry entry finds that very entry |
| `Router.PolicyNameIgnoresCase` | src/ai_decision_router/router.py:36 | changing the case of the policy name's ASCII letters, all to upper or all to lower, never changes the policy chosen |
| `Router.Explain` | src/ai_decision_router/router.py:45-53 | `explain` fails exactly when no model is configured; otherwise it reports the prompt's classified task and the selected policy's name, describes the model that policy picks over the registry in order under the configured budgets, with the pick's rationale, and stays within those budgets whenever some model fits |
| `Router.ExplainedModelIsRegistered` | src/ai_decision_router/router.py:62 | the model `explain` names is always in the registry, so the lookup in `run` cannot fail, and the decision describes the looked-up spec |
| `Router.Fresh` | src/ai_decision_router/router.py:61-80 | a miss fails with "no models" when `explain` does, and otherwise only with a missing key; on success it reports the classified task and the explained model, is no hit, appends one fresh row when tracing and stores the result only when caching |
| `Router.Run` | src/ai_decision_router/router.py:55-80 | `run` reports a hit exactly when caching is on and the prompt is cached, and never fails on such a hit |
| `Router.CacheHit` | src/ai_decision_router/router.py:56-59 | a cached prompt with caching on is answered from the cache: no failure, the stored result marked as a hit, the cache unchanged, one cached row traced |
| `Router.ChosenSpec` | src/ai_decision_router/router.py:62 | the spec `run` looks up is a registered model with the explained name, described by the decision |
| `Router.MissErrors` | src/ai_decision_router/router.py:61-64 | on a miss, `run` fails with "no models" exactly when none is configured, and with "missing key" exactly when the chosen model's provider is "openai" and no key is set |
| `Router.MissResult` | src/ai_decision_router/router.py:61-77 | a successful miss returns the decision's task, policy, model and rationale together with the chosen adapter's reply, latency, cost and metadata, marked as no hit; the trace row carries both decision and result |
| `Router.SecondRunHits` | src/ai_decision_router/router.py:55-59 | with caching on, running a prompt again is a hit that returns the first answer, whatever the environment of the second call |
| `Router.CachingOff` | src/ai_decision_router/router.py:78-79 | with caching off, `run` never reads the cache, leaves it unchanged and reports no hit |
| `Router.TracingOff` | src/ai_decision_router/tracing.py:17-19 | with tracing off, `run` leaves the trace unchanged |
| `Router.RunGrowsCache` | src/ai_decision_router/router.py:78-79 | a successful `run` adds the prompt to the cache's keys exactly when caching is on, and no other key |
| `Router.RunGrowsTrace` | src/ai_decision_router/router.py:58 | a successful `run` appends one row when tracing is on and keeps every earlier row |
| `Router.RunKeepsCacheConsistent` | src/ai_decision_router/router.py:66-80 | every cached entry is stored as no hit, carries the label of the prompt it is stored under, and names a registered model; a new router and every `run` keep this so |
| `PolicyExamples.SeparatedLettersTokens` | src/ai_decision_router/policies.py:24 | seven letters separated by the information separator U+001C are seven words, so the estimate is 21 tokens |
| `PolicyExamples.RulesCodeTakesPremium` | tests/test_policies.py:11-15 | rules policy, code task, budget (1, 2000) on the test models: any prompt of at most 1000 words goes to "premium" with the code rationale |
| `PolicyExamples.RulesPrefersQualityForCode` | tests/test_policies.py:11-15 | "Write python code" as a code task goes to "premium" |
| `PolicyExamples.ScoreTakesBalanced` | tests/test_policies.py:18-23 | score policy with weights (0.7, 0.2, 0.1), budget (0.02, 700): any prompt of at most 1000 words goes to "balanced", because premium is too slow |
| `PolicyExamples.ScoreSelectsViableModel` | tests/test_policies.py:18-23 | "General question" under that policy goes to "balanced" |
| `PolicyExamples.ZeroBudgetFallsBack` | src/ai_decision_router/policies.py:49-60 | with a zero cost budget, either policy falls back to the lowest-rate model with its own fallback rationale |
| `PolicyExamples.RulesGeneralTakesTarget` | src/ai_decision_router/policies.py:71-73 | a general task goes to the model nearest quality 0.8 |
| `PolicyExamples.RulesDataTakesCheapest` | src/ai_decision_router/policies.py:68-70 | a data task goes to the model of lowest estimated cost |
| `PolicyExamples.RulesShortWritingTakesFastest` | src/ai_decision_router/policies.py:65-67 | a writing prompt under 400 characters goes to the fastest model |
| `PolicyExamples.CheaperRateCheaperEstimate` | src/ai_decision_router/policies.py:23-25 | for one prompt, a lower per-1k rate always gives a lower estimate |
| `PolicyExamples.LatencyWeightTakesFast` | src/ai_decision_router/policies.py:109-113 | with weight on latency only, the score policy takes the fastest model for a general task |
| `PolicyExamples.ReasoningUtilities` | src/ai_decision_router/policies.py:109-115 | with latency weight 0.01 only, the three test models score 0.029, 0.035 and 0.0375 on a reasoning task: the bonus outweighs the premium model's extra latency |
| `PolicyExamples.ReasoningBonusFavoursQuality` | src/ai_decision_router/policies.py:114-115 | under those same weights the reasoning bonus of 0.05 per quality point makes the premium model win a reasoning task |
| `RouterExamples.DefaultRegistry` | src/ai_decision_router/config.py:47-72 | the default configuration registers mock-fast, mock-balanced and mock-premium, in that order, with their configured quality, rate and latency |
| `RouterExamples.DefaultPolicyAndBudget` | src/ai_decision_router/config.py:7-13 | the default policy name resolves to the rules policy, and the default budget is 0.05 USD and 2500 ms |
| `RouterExamples.DefaultRouter` | src/ai_decision_router/config.py:47-72 | the default router registers mock-fast, mock-balanced and mock-premium in that order, uses the rules policy and a budget of 0.05 USD and 2500 ms |
| `RouterExamples.DefaultSpecsCodeTakesPremium` | src/ai_decision_router/config.py:7-9 | under the default budget every default model fits a prompt of at most 1000 words, so a code task goes to mock-premium |
| `RouterExamples.DefaultCodeTakesPremium` | src/ai_decision_router/router.py:45-53 | the default router explains any code prompt of at most 1000 words with mock-premium |
| `RouterExamples.DefaultCodeRun` | src/ai_decision_router/router.py:61-80 | a new default router answers such a prompt with mock-premium's mock reply at the mock's price for its rate, as no hit |
| `RouterExamples.FirstRunThenHit` | src/ai_decision_router/router.py:55-80 | on a new router with caching and tracing on, a first run leaves one trace row and one cached prompt, and a second run returns the same answer as a hit |
| `RouterExamples.DebugPromptRun` | src/ai_decision_router/router.py:55-80 | a new default router routes "Debug this python function" to mock-premium |

## Left out

- The SHA-256 digest, the environment variables `OPENAI_API_KEY` and `OPENAI_BASE_URL`, and `time.perf_counter` are not computed. They are fields of the `Env` parameter, because they lie outside the process.
- The trace file is not modelled: no directory creation, no JSON rows, no timestamp, no prompt hash. A trace row is kept as the prompt with the decision and result it would record.
- Python exceptions become two error values. Their classes (`ValueError`, `RuntimeError`) and message texts are not modelled. A failed `run` returns an error, and the caller keeps the state it had. This matches the source, which raises before it touches the trace or the cache.
- The returned result dict is the same object as the cached one, so a caller's mutation would leak into the cache. Values cannot be aliased, so this is not modelled.
- Loading the configuration (`RouterConfig.from_toml`, pydantic validation) is not modelled. Neither is `default_adapter`, which the router never reads. The router reads `trace.output_path` to build its trace logger, but the file it names is not modelled. The benchmark and the CLI are outside the routing core.
- Floats are reals, so IEEE rounding and the non-finite values `inf` and `nan` are not modelled. The score rationale's `.3f` rendering and the mock reply's `.2f` rendering are kept as the values they show (`Rationale.UtilityScore`, `ReplyText.MockReply`), not as strings.
- Text.Lower: maps ASCII letters only. Python's `str.lower` is Unicode-aware.
- Text.Upper: maps ASCII letters only, so `Text.LowerOfUpper`, `Classifier.ClassifyIgnoresCase` and `Router.PolicyNameIgnoresCase` speak of ASCII case only. Python's `str.upper` can change a text beyond that, for example "ß" to "SS", so the source's label or policy can change under a full Unicode upper-casing.
- Classifier.Classify: the `\b` boundary uses the ASCII word characters `[A-Za-z0-9_]`. Python's `re` counts every Unicode letter and digit.
- Adapters.OpenAIGenerate: promises only a non-negative latency, because the elapsed time is a clock reading.
- Adapters.MockGenerate: prompts are sequences of Unicode scalar values, so the `UnicodeEncodeError` that `.encode()` raises on a prompt holding a lone surrogate is not modelled. With such a prompt the source's mock fails where the model's never does.
- Adapters.MockGenerate: reals cannot be `inf` or `nan`, so the `OverflowError` and `ValueError` that `int()` raises at adapters.py:20 on a model whose configured latency is not finite are not modelled. The configuration loader accepts such values, and a policy can still choose that model by rate or quality.
- Adapters.Generate: for the same reasons, neither the encode error on a lone surrogate nor the `int()` error on a non-finite latency is among its failures.
- Router.Fresh: for the same reasons, neither the mock's encode error, nor the one the trace logger raises when it hashes such a prompt, nor the mock's `int()` error on a non-finite latency is among its failures.
- Router.Run: its own contract states only hit or miss and never failing on a hit. The full behaviour is stated by `Router.CacheHit`, `Router.MissErrors`, `Router.MissResult` and the other lemmas about `Run`.
