/**
 * The OpenRouter client's policy (lib/ai-config): configuration from the environment, the retry
 * loop with capped exponential back-off, the mapping from HTTP status to error, the request
 * defaults and `completeText`. Each HTTP exchange is an oracle answer indexed by attempt number;
 * sleeps are recorded as the sequence of their delays.
 */
module AiConfig {
  import opened Common
  import opened Strings

  // ---------------------------------------------------------------------------------------------
  // Thrown values and outcomes
  // ---------------------------------------------------------------------------------------------

  /** What a failed call throws: an `Error`, a `Response` object, or `undefined`. */
  datatype Thrown = ErrorValue(message: string) | ResponseValue(status: int) | Undefined

  /** A settled promise. */
  datatype Outcome<T> = Success(value: T) | Failure(error: Thrown)

  // ---------------------------------------------------------------------------------------------
  // Configuration, `getOpenRouterConfig`
  // ---------------------------------------------------------------------------------------------

  const ApiKeyVar := "OPENROUTER_API_KEY"
  const BaseUrlVar := "OPENROUTER_BASE_URL"
  const ModelVar := "OPENROUTER_MODEL"
  const SiteUrlVar := "OPENROUTER_SITE_URL"
  const SiteNameVar := "OPENROUTER_SITE_NAME"

  const DefaultModel := "anthropic/claude-sonnet-4.5"
  const DefaultBaseUrl := "https://openrouter.ai/api/v1"
  const MissingKeyMessage := "OPENROUTER_API_KEY is not set " + "in environment variables"

  datatype Config = Config(
    apiKey: string,
    baseUrl: string,
    model: string,
    siteUrl: Option<string>,
    siteName: Option<string>)

  /** A variable read as an optional property: present (possibly empty) or `undefined`. */
  function EnvField(env: Env, name: string): Option<string> {
    if name in env then Some(env[name]) else None
  }

  /** `getOpenRouterConfig`, after `validateEnvironment`. */
  function GetOpenRouterConfig(env: Env): (r: Outcome<Config>)
    ensures r.Failure? <==> !EnvSet(env, ApiKeyVar)
    ensures r.Failure? ==> r.error == ErrorValue(MissingKeyMessage)
    ensures r.Success? ==> r.value.apiKey == env[ApiKeyVar] && r.value.apiKey != ""
    ensures r.Success? ==> r.value.baseUrl == (if EnvSet(env, BaseUrlVar) then env[BaseUrlVar] else DefaultBaseUrl)
    ensures r.Success? ==> r.value.model == (if EnvSet(env, ModelVar) then env[ModelVar] else DefaultModel)
    ensures r.Success? ==> r.value.baseUrl != "" && r.value.model != ""
    ensures r.Success? ==> r.value.siteUrl == EnvField(env, SiteUrlVar) && r.value.siteName == EnvField(env, SiteNameVar)
  {
    if !EnvSet(env, ApiKeyVar) then Failure(ErrorValue(MissingKeyMessage))
    else
      Success(Config(
        env[ApiKeyVar],
        EnvOr(env, BaseUrlVar, DefaultBaseUrl),
        EnvOr(env, ModelVar, DefaultModel),
        EnvField(env, SiteUrlVar),
        EnvField(env, SiteNameVar)))
  }

  // ---------------------------------------------------------------------------------------------
  // Retry, `withRetry`
  // ---------------------------------------------------------------------------------------------

  /** The options object; a missing field takes its default. */
  datatype RetryOptions = RetryOptions(maxRetries: Option<int>, baseDelay: Option<int>, maxDelay: Option<int>)

  function MaxRetriesOf(o: RetryOptions): int { o.maxRetries.GetOr(3) }
  function BaseDelayOf(o: RetryOptions): int { o.baseDelay.GetOr(1000) }
  function MaxDelayOf(o: RetryOptions): int { o.maxDelay.GetOr(10000) }

  /** `2 ** n`. */
  function Pow2(n: nat): nat {
    if n == 0 then 1 else 2 * Pow2(n - 1)
  }

  /** The wait after failed attempt `k`: `Math.min(baseDelay * 2 ** k, maxDelay)`. */
  function Delay(baseDelay: int, maxDelay: int, k: nat): (d: int)
    ensures d <= maxDelay && d <= baseDelay * Pow2(k)
    ensures d == maxDelay || d == baseDelay * Pow2(k)
  {
    Min(baseDelay * Pow2(k), maxDelay)
  }

  /** With a non-negative base the schedule never shrinks. */
  lemma DelayMonotone(baseDelay: int, maxDelay: int, k: nat)
    requires baseDelay >= 0
    ensures Delay(baseDelay, maxDelay, k) <= Delay(baseDelay, maxDelay, k + 1)
  {
    assert baseDelay * Pow2(k + 1) == 2 * (baseDelay * Pow2(k));
  }

  /** The default schedule: 1000, 2000, 4000, 8000, then capped at 10000. */
  lemma DefaultSchedule()
    ensures Delay(1000, 10000, 0) == 1000 && Delay(1000, 10000, 1) == 2000
    ensures Delay(1000, 10000, 2) == 4000 && Delay(1000, 10000, 3) == 8000
    ensures Delay(1000, 10000, 4) == 10000
  {
    assert Pow2(4) == 16;
  }

  /** An outcome that ends the loop at once: a success, or a thrown `Response` with a 4xx status. */
  predicate Stops<T>(o: Outcome<T>) {
    o.Success? || (o.error.ResponseValue? && 400 <= o.error.status < 500)
  }

  /**
   * `withRetry`: `fn(k)` is what the `k`-th call settles to. Returns the outcome, the number of
   * calls made and the delays slept, in order.
   */
  method WithRetry<T>(fn: nat -> Outcome<T>, options: RetryOptions) returns (result: Outcome<T>, calls: nat, delays: seq<int>)
    ensures calls <= Max(0, MaxRetriesOf(options))
    ensures calls == 0 <==> MaxRetriesOf(options) <= 0
    ensures forall k :: 0 <= k < calls - 1 ==> !Stops(fn(k))
    ensures 0 < calls < MaxRetriesOf(options) ==> Stops(fn(calls - 1))
    ensures calls > 0 ==> result == fn(calls - 1)
    ensures calls == 0 ==> result == Failure(Undefined)
    ensures |delays| == Max(0, calls - 1)
    ensures forall k :: 0 <= k < |delays| ==> delays[k] == Delay(BaseDelayOf(options), MaxDelayOf(options), k)
  {
    var maxRetries := MaxRetriesOf(options);
    var baseDelay := BaseDelayOf(options);
    var maxDelay := MaxDelayOf(options);
    var lastError: Thrown := Undefined;
    var attempt: nat := 0;
    calls := 0;
    delays := [];
    while attempt < maxRetries
      invariant attempt <= Max(0, maxRetries)
      invariant calls == attempt
      invariant forall k :: 0 <= k < attempt ==> !Stops(fn(k))
      invariant attempt > 0 ==> fn(attempt - 1).Failure? && lastError == fn(attempt - 1).error
      invariant attempt == 0 ==> lastError == Undefined
      invariant |delays| == (if attempt == maxRetries && attempt > 0 then attempt - 1 else attempt)
      invariant forall k :: 0 <= k < |delays| ==> delays[k] == Delay(baseDelay, maxDelay, k)
    {
      var o := fn(attempt);
      calls := attempt + 1;
      if o.Success? {
        result := o;
        return;
      }
      lastError := o.error;
      if o.error.ResponseValue? && 400 <= o.error.status < 500 {
        result := Failure(o.error);
        return;
      }
      var delay := Min(baseDelay * Pow2(attempt), maxDelay);
      if attempt < maxRetries - 1 {
        delays := delays + [delay];
      }
      attempt := attempt + 1;
    }
    result := Failure(lastError);
  }

  // ---------------------------------------------------------------------------------------------
  // One request, the function `callOpenRouter` hands to `withRetry`
  // ---------------------------------------------------------------------------------------------

  /** The part of a completion the core reads: each choice's message content, if any. */
  datatype Completion = Completion(model: string, choices: seq<Option<string>>)

  /** How one `fetch` settles: it throws, or a reply arrives with its status and parsed body. */
  datatype FetchResult =
    | Threw(thrown: Thrown)
    | Reply(status: int, providerMessage: Option<string>, data: Completion)

  const RateLimitMessage := "Rate limit exceeded. " + "Please try again in a moment."
  const InvalidKeyMessage := "Invalid API key. " + "Please check your OpenRouter configuration."
  const ForbiddenMessage := "Access forbidden. " + "Please check your OpenRouter account permissions."
  const StatusPrefix := "API request failed " + "with status "
  const UnknownErrorMessage := "Unknown error occurred " + "during API request"

  /** `response.ok`. */
  predicate IsOk(status: int) { 200 <= status <= 299 }

  /** The message of the `Error` thrown for a reply that is not OK. */
  function StatusErrorMessage(status: int, providerMessage: Option<string>): (r: string)
    ensures status == 429 ==> r == RateLimitMessage
    ensures status == 401 ==> r == InvalidKeyMessage
    ensures status == 403 ==> r == ForbiddenMessage
    ensures status != 429 && status != 401 && status != 403 ==>
      if providerMessage.Some? && providerMessage.value != "" then r == providerMessage.value
      else r == StatusPrefix + IntToString(status)
    ensures r != ""
  {
    if status == 429 then RateLimitMessage
    else if status == 401 then InvalidKeyMessage
    else if status == 403 then ForbiddenMessage
    else if providerMessage.Some? && providerMessage.value != "" then providerMessage.value
    else StatusPrefix + IntToString(status)
  }

  /** The generic message carries the status: its digits after the prefix read back as the status. */
  lemma StatusReadBack(status: nat, providerMessage: Option<string>)
    requires status != 429 && status != 401 && status != 403
    requires providerMessage.None? || providerMessage.value == ""
    ensures var r := StatusErrorMessage(status, providerMessage);
      && |StatusPrefix| < |r| && r[..|StatusPrefix|] == StatusPrefix
      && (forall k :: |StatusPrefix| <= k < |r| ==> IsDigit(r[k]))
      && DigitsValue(r[|StatusPrefix|..]) == status
  {
    var r := StatusErrorMessage(status, providerMessage);
    assert r[|StatusPrefix|..] == NatToString(status);
    DigitsRoundTrip(status);
  }

  /** The inner `catch`: an `Error` is rethrown, anything else becomes a generic `Error`. */
  function Rethrown(v: Thrown): (r: Thrown)
    ensures r.ErrorValue?
    ensures v.ErrorValue? ==> r == v
  {
    if v.ErrorValue? then v else ErrorValue(UnknownErrorMessage)
  }

  /** How one attempt of `callOpenRouter` settles; it only ever throws `Error` values. */
  function Attempt(f: FetchResult): (o: Outcome<Completion>)
    ensures o.Success? <==> f.Reply? && IsOk(f.status)
    ensures o.Success? ==> o.value == f.data
    ensures o.Failure? ==> o.error.ErrorValue? && !Stops(o)
    ensures f.Reply? && !IsOk(f.status) ==> o.error == ErrorValue(StatusErrorMessage(f.status, f.providerMessage))
  {
    match f
    case Threw(v) => Failure(Rethrown(v))
    case Reply(status, providerMessage, data) =>
      if IsOk(status) then Success(data)
      else Failure(Rethrown(ErrorValue(StatusErrorMessage(status, providerMessage))))
  }

  // ---------------------------------------------------------------------------------------------
  // The request body and `callOpenRouter`
  // ---------------------------------------------------------------------------------------------

  /** The caller's options; `undefined` fields are `None`. */
  datatype CallOptions = CallOptions(temperature: Option<real>, maxTokens: Option<int>, stream: Option<bool>)

  datatype RequestBody = RequestBody(
    model: string,
    messages: seq<Message>,
    temperature: real,
    maxTokens: int,
    stream: bool)

  /** The request body; `??` replaces only absent options, so an explicit 0 or `false` is kept. */
  function BuildRequest(config: Config, messages: seq<Message>, options: CallOptions): (r: RequestBody)
    ensures r.model == config.model && r.messages == messages
    ensures options.temperature.Some? ==> r.temperature == options.temperature.value
    ensures options.temperature.None? ==> r.temperature == 0.7
    ensures options.maxTokens.Some? ==> r.maxTokens == options.maxTokens.value
    ensures options.maxTokens.None? ==> r.maxTokens == 2000
    ensures options.stream.Some? ==> r.stream == options.stream.value
    ensures options.stream.None? ==> !r.stream
  {
    RequestBody(
      config.model,
      messages,
      options.temperature.GetOr(0.7),
      options.maxTokens.GetOr(2000),
      options.stream.GetOr(false))
  }

  const NoOptions := CallOptions(None, None, None)
  const DefaultRetry := RetryOptions(None, None, None)

  /** A reply that `withRetry` returns at once: an OK status. */
  predicate OkReply(f: FetchResult) {
    f.Reply? && IsOk(f.status)
  }

  /** `replies(k)` is the first OK reply. */
  predicate FirstOk(replies: nat -> FetchResult, k: nat) {
    OkReply(replies(k)) && forall j: nat :: j < k ==> !OkReply(replies(j))
  }

  /** An attempt ends the retries exactly when its reply is OK. */
  lemma AttemptStopsIff(f: FetchResult)
    ensures Stops(Attempt(f)) <==> OkReply(f)
  {
  }

  /**
   * `callOpenRouter` with the default retry options: the configuration first (its failure throws
   * before any request), then up to three attempts. `replies(k)` is how the `k`-th fetch settles.
   */
  method CallOpenRouter(env: Env, messages: seq<Message>, options: CallOptions, replies: nat -> FetchResult)
    returns (result: Outcome<Completion>, calls: nat, delays: seq<int>)
    ensures GetOpenRouterConfig(env).Failure? ==> result == Failure(ErrorValue(MissingKeyMessage)) && calls == 0
    ensures calls <= 3
    ensures GetOpenRouterConfig(env).Success? ==> 0 < calls && result == Attempt(replies(calls - 1))
    ensures GetOpenRouterConfig(env).Success? && calls < 3 ==> OkReply(replies(calls - 1))
    ensures forall k: nat :: k < calls - 1 ==> !OkReply(replies(k))
    ensures result.Success? ==> calls > 0 && OkReply(replies(calls - 1)) && result.value == replies(calls - 1).data
    ensures forall k: nat :: GetOpenRouterConfig(env).Success? && k < 3 && FirstOk(replies, k) ==>
      calls == k + 1 && result == Success(replies(k).data)
    ensures GetOpenRouterConfig(env).Success? && (forall k: nat :: k < 3 ==> !OkReply(replies(k))) ==>
      calls == 3 && delays == [1000, 2000] && result == Attempt(replies(2))
  {
    var config := GetOpenRouterConfig(env);
    if config.Failure? {
      return Failure(config.error), 0, [];
    }
    var body := BuildRequest(config.value, messages, options);
    var fn := (k: nat) => Attempt(replies(k));
    result, calls, delays := WithRetry(fn, DefaultRetry);
    assert forall k: nat :: fn(k) == Attempt(replies(k));
    forall k: nat | k < calls - 1
      ensures !OkReply(replies(k))
    {
      AttemptStopsIff(replies(k));
    }
    if calls < 3 {
      AttemptStopsIff(replies(calls - 1));
    }
    if forall k: nat :: k < 3 ==> !OkReply(replies(k)) {
      DefaultSchedule();
      assert delays[0] == 1000 && delays[1] == 2000;
    }
  }

  /** A 401 reply is an `Error`, not a `Response`, so it does not stop the retries. */
  lemma UnauthorizedIsRetried(d: Completion)
    ensures Attempt(Reply(401, None, d)) == Failure(ErrorValue(InvalidKeyMessage))
    ensures !Stops(Attempt(Reply(401, None, d)))
  {
  }

  // ---------------------------------------------------------------------------------------------
  // `completeText`
  // ---------------------------------------------------------------------------------------------

  const ApologyMessage := "I apologize, but I'm having trouble "
    + "connecting to the AI service right now. Please try again in a moment."

  /** `response.choices[0]?.message?.content || ''`. */
  function FirstContent(c: Completion): (r: string)
    ensures r != "" <==> |c.choices| > 0 && c.choices[0].Some? && c.choices[0].value != ""
    ensures r != "" ==> r == c.choices[0].value
  {
    if |c.choices| > 0 && c.choices[0].Some? then c.choices[0].value else ""
  }

  /**
   * `completeText`: the message list built (a system message only for a non-empty system prompt,
   * then the user's), and the text returned.
   */
  method CompleteText(env: Env, prompt: string, systemPrompt: Option<string>, replies: nat -> FetchResult)
    returns (text: string, sent: seq<Message>)
    ensures |sent| == (if systemPrompt.Some? && systemPrompt.value != "" then 2 else 1)
    ensures sent[|sent| - 1] == Message(User, prompt)
    ensures |sent| == 2 ==> sent[0] == Message(System, systemPrompt.value)
    ensures GetOpenRouterConfig(env).Failure? ==> text == ApologyMessage
    ensures (forall k: nat :: k < 3 ==> !OkReply(replies(k))) ==> text == ApologyMessage
    ensures forall k: nat :: GetOpenRouterConfig(env).Success? && k < 3 && FirstOk(replies, k) ==>
      text == FirstContent(replies(k).data)
  {
    var messages: seq<Message> := [];
    if systemPrompt.Some? && systemPrompt.value != "" {
      messages := messages + [Message(System, systemPrompt.value)];
    }
    messages := messages + [Message(User, prompt)];
    sent := messages;
    var result, calls, delays := CallOpenRouter(env, messages, NoOptions, replies);
    if result.Success? {
      text := FirstContent(result.value);
    } else {
      text := ApologyMessage;
    }
  }
}
