/** The model adapters: the API-key check of their constructors and the
    retry loop with exponential backoff every `generate_text` runs its
    request through. */
module ModelAdapters {
  import opened Basics

  /** The three providers, one per adapter class. */
  datatype Provider = Doubao | OpenAI | Gemini

  /** The settings the adapters read from the configuration: retry count,
      request timeout and the configured API key of each provider (`None`
      when the setting is absent). */
  datatype Config = Config(
    maxRetries: int,
    timeout: int,
    doubaoKey: Option<string>,
    openaiKey: Option<string>,
    geminiKey: Option<string>)

  /** A constructed adapter: its provider, the key it resolved, and the
      retry count and timeout it copied from the configuration. */
  datatype Adapter = Adapter(provider: Provider, apiKey: string, maxRetries: int, timeout: int)

  function ConfiguredKey(provider: Provider, config: Config): Option<string>
  {
    match provider
    case Doubao => config.doubaoKey
    case OpenAI => config.openaiKey
    case Gemini => config.geminiKey
  }

  /** The `ValueError` each constructor raises without a key. */
  function MissingKeyMessage(provider: Provider): string
  {
    match provider
    case Doubao => "Doubao API key not configured"
    case OpenAI => "OpenAI API key not configured"
    case Gemini => "Gemini API key not configured"
  }

  /** Whether an optional key is a non-empty string, i.e. truthy. */
  predicate IsSet(key: Option<string>) {
    key.Some? && key.value != []
  }

  /** `api_key or Config.<PROVIDER>_API_KEY`. */
  function ResolveKey(apiKey: Option<string>, configured: Option<string>): (key: Option<string>)
    ensures IsSet(key) <==> IsSet(apiKey) || IsSet(configured)
    ensures IsSet(apiKey) ==> key == apiKey
  {
    if IsSet(apiKey) then apiKey else configured
  }

  /** `DoubaoAdapter(api_key)`, `ChatGPTAdapter(api_key)`,
      `GeminiAdapter(api_key)`: the key passed in wins when it is truthy,
      otherwise the configured one is used, and a constructor whose resolved
      key is empty or missing raises `ValueError`. */
  function NewAdapter(provider: Provider, apiKey: Option<string>, config: Config): (r: Result<Adapter, string>)
    ensures r.Success? <==> IsSet(apiKey) || IsSet(ConfiguredKey(provider, config))
    ensures r.Success? ==> r.value.provider == provider && r.value.apiKey != []
    ensures r.Success? && IsSet(apiKey) ==> r.value.apiKey == apiKey.value
    ensures r.Success? && !IsSet(apiKey) ==> Some(r.value.apiKey) == ConfiguredKey(provider, config)
    ensures r.Success? ==> r.value.maxRetries == config.maxRetries && r.value.timeout == config.timeout
    ensures r.Failure? ==> r.error == MissingKeyMessage(provider)
  {
    var key := ResolveKey(apiKey, ConfiguredKey(provider, config));
    if IsSet(key) then Success(Adapter(provider, key.value, config.maxRetries, config.timeout))
    else Failure(MissingKeyMessage(provider))
  }

  /** What one call of the request function does: return a value or raise. */
  datatype Attempt<T> = Returned(value: T) | Raised(error: string)

  /** How `_retry_request` ends: with the first value returned, by
      re-raising the last attempt's error, or, when `max_retries` is not
      positive, by falling through and returning `None`. */
  datatype RetryOutcome<T> = Value(value: T) | Error(error: string) | NoValue

  /** The sleeps after failed attempts `0 .. n - 1`: `2 ** attempt` seconds. */
  function Backoff(n: nat): (delays: seq<nat>)
    ensures |delays| == n
    ensures forall a :: 0 <= a < n ==> delays[a] == Pow2(a)
  {
    if n == 0 then [] else Backoff(n - 1) + [Pow2(n - 1)]
  }

  function Sum(xs: seq<nat>): nat
  {
    if xs == [] then 0 else Sum(xs[..|xs| - 1]) + xs[|xs| - 1]
  }

  /** The backoff before the `n + 1`-th attempt adds up to `2 ** n - 1`
      seconds. */
  lemma {:induction false} BackoffTotal(n: nat)
    ensures Sum(Backoff(n)) == Pow2(n) - 1
  {
    if n > 0 {
      BackoffTotal(n - 1);
      assert Backoff(n)[..n - 1] == Backoff(n - 1);
    }
  }

  /** `_retry_request(func)`: `request(a)` is what the `a`-th call of
      `func` does. Returns how the loop ends, how many calls it made and the
      sleeps it asked for, in order. */
  method RetryRequest<T>(maxRetries: int, request: nat -> Attempt<T>)
    returns (outcome: RetryOutcome<T>, calls: nat, sleeps: seq<nat>)
    ensures calls <= Max0(maxRetries)
    ensures forall a :: 0 <= a < calls - 1 ==> request(a).Raised?
    ensures outcome.Value? <==> calls > 0 && request(calls - 1).Returned?
    ensures outcome.Value? ==> outcome.value == request(calls - 1).value
    ensures outcome.Error? ==> calls > 0 && calls == maxRetries
    ensures outcome.Error? ==> request(calls - 1).Raised? && request(calls - 1).error == outcome.error
    ensures outcome.NoValue? <==> maxRetries <= 0
    ensures outcome.NoValue? ==> calls == 0
    ensures sleeps == Backoff(Max0(calls - 1))
  {
    outcome := NoValue;
    calls := 0;
    sleeps := [];
    var attempt := 0;
    while attempt < maxRetries
      invariant 0 <= attempt && attempt <= Max0(maxRetries)
      invariant maxRetries > 0 ==> attempt < maxRetries
      invariant calls == attempt
      invariant forall a :: 0 <= a < attempt ==> request(a).Raised?
      invariant sleeps == Backoff(attempt)
      decreases maxRetries - attempt
    {
      calls := calls + 1;
      match request(attempt)
      case Returned(v) =>
        outcome := Value(v);
        return;
      case Raised(e) =>
        if attempt == maxRetries - 1 {
          outcome := Error(e);
          return;
        }
        sleeps := sleeps + [Pow2(attempt)];
      attempt := attempt + 1;
    }
  }
}
