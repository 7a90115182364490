/**
  `VLLMOpenAIClient` of `vllm_openai_client.py`: a client holding fixed
  defaults that validates a conversation, resolves the model, assembles the
  chat-completions payload and reduces the server's answer to a result
  dictionary with throughput.

  The OpenAI transport is not modelled: `Generate` receives the server's
  answer (or the transport's failure) and the measured elapsed time as
  parameters, and reports the payload it would have dispatched.
 */
module VllmClient {
  import opened Wrappers
  import opened PyValues

  /** One chat message: a dictionary expected to carry `role` and `content`. */
  type Message = map<string, Value>

  /** The exceptions the client raises or lets through. */
  datatype ClientError =
    | KeyError(key: string)          // a required configuration key is missing
    | InvalidMessageFormat           // ValueError: a message lacks `role` or `content`
    | MissingModel                   // ValueError: no model in the call nor in the configuration
    | TransportError(cause: string)  // whatever the transport raised, passed on unchanged

  /** What the server reports: the first choice's text and `usage.completion_tokens`. */
  datatype ChatCompletion = ChatCompletion(content: string, completionTokens: int)

  /** The keys the source may put into the request payload. */
  const PayloadKeys: set<string> := {"messages", "model", "max_tokens", "temperature", "stop", "seed"}

  /** The keys of the dictionary `generate` returns. */
  const ResultKeys: set<string> := {"answer", "completion_tokens", "response_time_seconds", "tokens_per_second"}

  predicate HasRoleAndContent(msg: Message) {
    "role" in msg && "content" in msg
  }

  /** The message check: every message has both keys; an empty conversation passes. */
  function AllWellFormed(messages: seq<Message>): (ok: bool)
    ensures ok <==> forall i :: 0 <= i < |messages| ==> HasRoleAndContent(messages[i])
  {
    messages == [] || (HasRoleAndContent(messages[0]) && AllWellFormed(messages[1..]))
  }

  /**
    Model resolution: the argument when truthy, otherwise the configured
    default; MissingModel when neither is truthy (None or "").
   */
  function ResolveModel(model: Value, defaultModel: Value): (r: Result<Value, ClientError>)
    ensures r.Failure? <==> !Truthy(model) && !Truthy(defaultModel)
    ensures r.Failure? ==> r.error == MissingModel
    ensures r.Success? ==> Truthy(r.value)
    ensures r.Success? && Truthy(model) ==> r.value == model
    ensures r.Success? && !Truthy(model) ==> r.value == defaultModel
  {
    var resolved := Or(model, defaultModel);
    if Truthy(resolved) then Success(resolved) else Failure(MissingModel)
  }

  /** The conversation as the payload carries it: the same messages, in order. */
  function MessagesValue(messages: seq<Message>): (v: Value)
    ensures v.List? && |v.items| == |messages|
    ensures forall i :: 0 <= i < |messages| ==> v.items[i] == Dict(messages[i])
  {
    List(seq(|messages|, i requires 0 <= i < |messages| => Dict(messages[i])))
  }

  /**
    The precedence rule for one optional generation parameter: it is sent
    iff the override or the client's default is not None, and then carries
    the override when that is truthy and the default otherwise. A falsy
    override (0, 0.0, [], "") is therefore replaced by the default.
   */
  ghost predicate FollowsPrecedence(params: map<string, Value>, key: string, override: Value, fallback: Value) {
    && (key in params <==> override != Null || fallback != Null)
    && (key in params && Truthy(override) ==> params[key] == override)
    && (key in params && !Truthy(override) ==> params[key] == fallback)
  }

  /**
    The throughput reported to the caller: completion tokens per second when
    the elapsed time is positive, and the integer 0 otherwise.
   */
  function TokensPerSecond(completionTokens: int, responseTime: real): (r: Value)
    ensures responseTime > 0.0 ==> r.Float? && r.f * responseTime == completionTokens as real
    ensures responseTime <= 0.0 ==> r == Int(0)
  {
    if responseTime > 0.0 then Float(completionTokens as real / responseTime) else Int(0)
  }

  /** The dictionary `generate` returns for a completed request. */
  function CompletionResult(completion: ChatCompletion, responseTime: real): (r: map<string, Value>)
    ensures r.Keys == ResultKeys
    ensures r["answer"] == Str(completion.content)
    ensures r["completion_tokens"] == Int(completion.completionTokens)
    ensures r["response_time_seconds"] == Float(responseTime)
    ensures responseTime > 0.0 ==>
      (r["tokens_per_second"].Float? && r["tokens_per_second"].f * responseTime == completion.completionTokens as real)
    ensures responseTime <= 0.0 ==> r["tokens_per_second"] == Int(0)
  {
    map[
      "answer" := Str(completion.content),
      "completion_tokens" := Int(completion.completionTokens),
      "response_time_seconds" := Float(responseTime),
      "tokens_per_second" := TokensPerSecond(completion.completionTokens, responseTime)
    ]
  }

  class VllmOpenAIClient {
    const baseUrl: Value
    const apiKey: Value
    const defaultModel: Value
    const defaultMaxTokens: Value
    const defaultTemperature: Value
    const defaultStopTokens: Value
    const defaultMaxContextLength: Value
    const defaultSeed: Value

    /**
      The stored configuration: `base_url` is taken as given, every other
      setting from the configuration when present, else its default
      (api key "1", no model, 500 tokens, temperature 0.1, no stop
      tokens, context length 8192, seed 42).
     */
    predicate ConfiguredBy(config: map<string, Value>) {
      && "base_url" in config
      && baseUrl == config["base_url"]
      && apiKey == Get(config, "api_key", Str("1"))
      && defaultModel == Get(config, "model", Null)
      && defaultMaxTokens == Get(config, "max_tokens", Int(500))
      && defaultTemperature == Get(config, "temperature", Float(0.1))
      && defaultStopTokens == Get(config, "stop_tokens", Null)
      && defaultMaxContextLength == Get(config, "max_context_length", Int(8192))
      && defaultSeed == Get(config, "seed", Int(42))
    }

    constructor (config: map<string, Value>)
      requires "base_url" in config
      ensures ConfiguredBy(config)
    {
      baseUrl := config["base_url"];
      apiKey := Get(config, "api_key", Str("1"));
      defaultModel := Get(config, "model", Null);
      defaultMaxTokens := Get(config, "max_tokens", Int(500));
      defaultTemperature := Get(config, "temperature", Float(0.1));
      defaultStopTokens := Get(config, "stop_tokens", Null);
      defaultMaxContextLength := Get(config, "max_context_length", Int(8192));
      defaultSeed := Get(config, "seed", Int(42));
    }

    /** Construction from a configuration dictionary, including the KeyError when `base_url` is missing. */
    static method Create(config: map<string, Value>) returns (r: Result<VllmOpenAIClient, ClientError>)
      ensures r.Success? <==> "base_url" in config
      ensures r.Failure? ==> r.error == KeyError("base_url")
      ensures r.Success? ==> fresh(r.value) && r.value.ConfiguredBy(config)
    {
      if "base_url" !in config {
        return Failure(KeyError("base_url"));
      }
      var client := new VllmOpenAIClient(config);
      return Success(client);
    }

    /**
      The payload sent for a resolved model: the messages and the model,
      plus each optional parameter under the precedence rule, and nothing
      else.
     */
    ghost predicate IsPayload(params: map<string, Value>, messages: seq<Message>, model: Value,
                              maxTokens: Value, temperature: Value, stop: Value, seed: Value)
    {
      && params.Keys <= PayloadKeys
      && "messages" in params && params["messages"] == MessagesValue(messages)
      && "model" in params && params["model"] == model
      && FollowsPrecedence(params, "max_tokens", maxTokens, defaultMaxTokens)
      && FollowsPrecedence(params, "temperature", temperature, defaultTemperature)
      && FollowsPrecedence(params, "stop", stop, defaultStopTokens)
      && FollowsPrecedence(params, "seed", seed, defaultSeed)
    }

    /** Payload assembly: the two fixed entries, then four conditional insertions. */
    method BuildParams(messages: seq<Message>, model: Value,
                       maxTokens: Value, temperature: Value, stop: Value, seed: Value)
      returns (params: map<string, Value>)
      ensures IsPayload(params, messages, model, maxTokens, temperature, stop, seed)
    {
      params := map["messages" := MessagesValue(messages), "model" := model];
      if maxTokens != Null || defaultMaxTokens != Null {
        params := params["max_tokens" := Or(maxTokens, defaultMaxTokens)];
      }
      if temperature != Null || defaultTemperature != Null {
        params := params["temperature" := Or(temperature, defaultTemperature)];
      }
      if stop != Null || defaultStopTokens != Null {
        params := params["stop" := Or(stop, defaultStopTokens)];
      }
      if seed != Null || defaultSeed != Null {
        params := params["seed" := Or(seed, defaultSeed)];
      }
    }

    /**
      `generate`: rejects a malformed conversation, then a missing model,
      both before anything is dispatched; otherwise dispatches the payload
      and either passes the transport's failure on or returns the result
      dictionary. `sent` is the payload handed to the transport, if any.
     */
    method Generate(messages: seq<Message>, model: Value,
                    maxTokens: Value, temperature: Value, stop: Value, seed: Value,
                    response: Result<ChatCompletion, string>, responseTime: real)
      returns (r: Result<map<string, Value>, ClientError>, sent: Option<map<string, Value>>)
      ensures !AllWellFormed(messages) ==> r == Failure(InvalidMessageFormat) && sent == None
      ensures AllWellFormed(messages) && ResolveModel(model, defaultModel).Failure? ==>
                r == Failure(MissingModel) && sent == None
      ensures AllWellFormed(messages) && ResolveModel(model, defaultModel).Success? ==>
                && sent.Some?
                && IsPayload(sent.value, messages, ResolveModel(model, defaultModel).value,
                             maxTokens, temperature, stop, seed)
      ensures sent.Some? && response.Failure? ==> r == Failure(TransportError(response.error))
      ensures sent.Some? && response.Success? ==> r == Success(CompletionResult(response.value, responseTime))
    {
      if !AllWellFormed(messages) {
        return Failure(InvalidMessageFormat), None;
      }
      var resolved := ResolveModel(model, defaultModel);
      if resolved.Failure? {
        return Failure(resolved.error), None;
      }
      var params := BuildParams(messages, resolved.value, maxTokens, temperature, stop, seed);
      sent := Some(params);
      match response
      case Failure(cause) =>
        r := Failure(TransportError(cause));
      case Success(completion) =>
        r := Success(CompletionResult(completion, responseTime));
    }
  }

  /** The payload predicate determines the payload: `BuildParams` has exactly one correct answer. */
  lemma PayloadIsUnique(c: VllmOpenAIClient, p: map<string, Value>, q: map<string, Value>,
                        messages: seq<Message>, model: Value,
                        maxTokens: Value, temperature: Value, stop: Value, seed: Value)
    requires c.IsPayload(p, messages, model, maxTokens, temperature, stop, seed)
    requires c.IsPayload(q, messages, model, maxTokens, temperature, stop, seed)
    ensures p == q
  {
    assert p.Keys == q.Keys;
  }

  /**
    The truthiness rule as written: a falsy override that is not None (such
    as a temperature of 0.0) is sent as the client's default instead.
   */
  lemma FalsyOverrideYieldsDefault(params: map<string, Value>, key: string, override: Value, fallback: Value)
    requires FollowsPrecedence(params, key, override, fallback)
    requires override != Null && !Truthy(override)
    ensures key in params && params[key] == fallback
  {
  }

  /**
    A call-time temperature of 0.0 against a configured default of 0.7:
    the payload carries 0.7.
   */
  lemma ZeroTemperatureSendsDefault(c: VllmOpenAIClient, params: map<string, Value>,
                                    messages: seq<Message>, model: Value,
                                    maxTokens: Value, stop: Value, seed: Value)
    requires c.defaultTemperature == Float(0.7)
    requires c.IsPayload(params, messages, model, maxTokens, Float(0.0), stop, seed)
    ensures "temperature" in params && params["temperature"] == Float(0.7)
  {
    FalsyOverrideYieldsDefault(params, "temperature", Float(0.0), c.defaultTemperature);
  }

  /** An empty stop list with no configured stop tokens sends `stop` with the value None. */
  lemma EmptyStopSendsNull(params: map<string, Value>)
    requires FollowsPrecedence(params, "stop", List([]), Null)
    ensures "stop" in params && params["stop"] == Null
  {
  }

  /** 50 tokens over 2 seconds is 25 tokens per second; over 0 seconds it is 0. */
  lemma ThroughputExamples()
    ensures TokensPerSecond(50, 2.0) == Float(25.0)
    ensures TokensPerSecond(50, 0.0) == Int(0)
  {
  }
}
