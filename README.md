# vLLM request shaping, modelled in Dafny

This project models the two pieces of logic that decide what a deepwiki-open
process sends to a vLLM server speaking the OpenAI chat-completions protocol.

- **Parameter reconciler** (`api/vllm_config.py`, module `VllmConfig`).
  `get_vllm_optimized_kwargs` copies a caller's parameter dictionary. It pops
  every key on the `VLLM_INCOMPATIBLE_PARAMS` denylist. Then it inserts each
  entry of `VLLM_DEFAULT_CONFIG["default_model_kwargs"]` whose key is absent.
  The method keeps the source's two loops over a map variable and is proved
  equal to the specification function `Reconciled`. The lemmas about
  `Reconciled` state the key set, the kept caller values, the defaults and
  idempotence.
- **Completion client** (`vllm_openai_client.py`, module `VllmClient`).
  `VllmOpenAIClient` holds its configuration in fields fixed at construction.
  `Generate` does four things in order:
  - rejects a conversation in which a message lacks `role` or `content`;
  - resolves the model with Python's `or`;
  - builds the payload by conditional insertion;
  - reduces the server's answer to the result dictionary with a zero-guarded
    throughput.

Python values are the datatype `PyValues.Value`. `Null` stands for `None`.
`Truthy` encodes Python's `bool()`, which decides every `or` and `not` of
the client (vllm_openai_client.py:33-34, 44-53). `Get` encodes `dict.get`,
which the constructor uses (vllm_openai_client.py:10-16). `Or` is Python's
`a or b`. Exceptions are
`Result` failures: `KeyError`, the two `ValueError`s, and the transport's
failure passed on unchanged.

The client applies the per-call overrides as written, using `override or
default`. So an override that is present but falsy, such as temperature
`0.0`, `max_tokens=0` or `stop=[]`, is replaced by the client's default. The
reconciler does the opposite: it uses a presence test, so a caller's `0`,
`False` or `""` is kept. `FalsyOverrideYieldsDefault` and `EmptyStopSendsNull`
state the client's behaviour. `ReconciledDefaults` states the reconciler's.

The two components are independent. With its default configuration the
client sends `seed` 42, even though `seed` is on the reconciler's denylist.
The client never calls the reconciler.

## Model

| member | source | states |
|---|---|---|
| `PyValues.Or` | vllm_openai_client.py:44 | `a or b` yields one of its operands; the result is truthy iff either operand is; a truthy left operand wins and a falsy left operand yields the right one |
| `VllmConfig.Reconciled` | api/vllm_config.py:48-59 | the result's keys are exactly (input keys minus the denylist) plus the default keys; non-denylisted input values are unchanged; an absent default key gets the table value |
| `VllmConfig.DefaultsAreCompatible` | api/vllm_config.py:12-36 | no key of the defaults table is on the denylist |
| `VllmConfig.ReconciledIsCompatible` | api/vllm_config.py:51-52 | the result holds no denylisted key, whether or not the input had it |
| `VllmConfig.ReconciledDefaults` | api/vllm_config.py:55-57 | every default key is present; it keeps the caller's value whenever the key was present, falsy or not; otherwise it holds the table value (e.g. `max_tokens` 1024) |
| `VllmConfig.ReconciledIdempotent` | api/vllm_config.py:48-59 | reconciling an already reconciled mapping returns it unchanged |
| `VllmConfig.StrippedIsDifference` | api/vllm_config.py:51-52 | the state after the pop loop is the input minus the denylist |
| `VllmConfig.FilledIsReconciled` | api/vllm_config.py:55-57 | the state after the default loop is the reconciled mapping |
| `VllmConfig.GetVllmOptimizedKwargs` | api/vllm_config.py:38-59 | for any input (no precondition, no failure), the two loops compute exactly `Reconciled` of the input; the input map is a value and is left as it was |
| `VllmClient.AllWellFormed` | vllm_openai_client.py:30-31 | true iff every message has both `role` and `content`; an empty conversation passes |
| `VllmClient.ResolveModel` | vllm_openai_client.py:33-35 | fails with MissingModel iff neither the argument nor the default is truthy; otherwise a truthy model, the argument when it is truthy, else the default |
| `VllmClient.MessagesValue` | vllm_openai_client.py:37-38 | the payload's `messages` entry is the caller's messages, same length, same order, each unchanged |
| `VllmClient.TokensPerSecond` | vllm_openai_client.py:61 | for positive elapsed time, a float whose product with the time is the token count; otherwise the integer 0, never undefined |
| `VllmClient.CompletionResult` | vllm_openai_client.py:59-68 | the result has exactly the keys `answer`, `completion_tokens`, `response_time_seconds` and `tokens_per_second`; text and token count are copied from the response; the throughput obeys the zero guard |
| `VllmClient.VllmOpenAIClient.constructor` | vllm_openai_client.py:8-16 | `base_url` as given; the other settings from the configuration or else their defaults: api key "1", no model, 500, 0.1, no stop tokens, 8192, seed 42 |
| `VllmClient.VllmOpenAIClient.Create` | vllm_openai_client.py:9 | construction fails with KeyError("base_url") iff the configuration lacks `base_url`; otherwise a fresh client configured as above |
| `VllmClient.VllmOpenAIClient.BuildParams` | vllm_openai_client.py:37-53 | the payload holds `messages` and the resolved `model`; each of `max_tokens`, `temperature`, `stop` and `seed` is present iff the override or the default is not None, with the override if truthy, else the default; no other key |
| `VllmClient.VllmOpenAIClient.Generate` | vllm_openai_client.py:23-69 | an ill-formed message gives InvalidMessageFormat and then a missing model gives MissingModel, both with nothing dispatched; otherwise the dispatched payload is the one above, a transport failure is passed on unchanged, and success yields the result dictionary |
| `VllmClient.PayloadIsUnique` | vllm_openai_client.py:37-53 | the payload description fixes the payload completely |
| `VllmClient.FalsyOverrideYieldsDefault` | vllm_openai_client.py:43-53 | an override that is not None but falsy (0, 0.0, [], "") is sent as the client's default |
| `VllmClient.ZeroTemperatureSendsDefault` | vllm_openai_client.py:46-47 | with a configured default temperature of 0.7, a call-time temperature of 0.0 is sent as 0.7 |
| `VllmClient.EmptyStopSendsNull` | vllm_openai_client.py:49-50 | `stop=[]` with no default stop tokens sends `stop` with the value None |
| `VllmClient.ThroughputExamples` | vllm_openai_client.py:61 | 50 tokens over 2.0 s gives 25.0 tokens per second; over 0 s it gives 0 |

## Left out

- The `OpenAI(...)` client and the `chat.completions.create` call (vllm_openai_client.py:18-21, 56) are a network client. `Generate` takes the server's answer as a parameter instead: the first choice's text and the completion-token count, or the transport's failure.
- The `time.time()` measurement (vllm_openai_client.py:55-57) is replaced by an elapsed-time parameter of type `real`. Floating-point rounding of the division is not modelled.
- Python floats are exact reals in `Value.Float`, so NaN, infinities and -0.0 cannot be represented. NaN would be truthy in Python. Nothing in the core computes with float parameter values, so only their representation is lost.
- `VllmClient.ChatCompletion` holds only the first choice's text. The model does not cover an empty `choices` list, a missing `usage` or a `None` content.
- `VllmClient.VllmOpenAIClient.constructor`: requires `base_url`, because a Dafny constructor cannot fail. The KeyError for a missing `base_url` is modelled by `Create`.
- `GetVllmOptimizedKwargs` works on a Dafny map, which is a value. So Python's dictionary aliasing and its shallow `copy()` are not modelled. The caller's mapping cannot be changed by construction.
- The iteration order of the defaults loop is not modelled: the method takes pending keys in any order. The result does not depend on the order.
- `create_vllm_client` (api/vllm_config.py:61-73) is left out. It is a thin wrapper over `api/openai_client.py`, which is not part of this model. The `vllm_compatible` and `force_streaming` entries of `VLLM_DEFAULT_CONFIG` are used only by that wrapper, so they are left out too.
- `log_vllm_request` (api/vllm_config.py:75-98) is left out because it only writes logs.
- The demonstration block under `__main__` (vllm_openai_client.py:72-94) is left out, and so is test_vllm.py. That script makes live HTTP calls and reads environment variables.
- `default_max_context_length` is stored in the field `defaultMaxContextLength`, but nothing reads it (vllm_openai_client.py:15). So nothing is stated about its use.
