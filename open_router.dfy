/** The completion client (`OpenRouterService`): one chat-completion request
    with bounded retries and exponential backoff, the mapping of the final
    failure to a message, and the single-attempt model listing.

    The HTTP transport is a parameter: `call(k)` is what the k-th call of the
    operation produces (k = 0 is the first attempt). Waiting is not performed;
    each wait the client would make is recorded, in milliseconds. */
module OpenRouter {
  import opened Wrappers
  import opened Text

  /** Retries allowed after the first attempt (`maxRetries`). */
  const MaxRetries: nat := 3
  /** Base backoff delay in milliseconds (`retryDelay`). */
  const RetryDelayMs: nat := 1000

  /** Why one call failed, in the three shapes axios distinguishes. */
  datatype Failure =
    | HttpError(status: int, providerMessage: Option<string>) // a response arrived; `data?.error?.message`
    | NoResponse                                              // the request went out, nothing came back
    | SetupError(message: string)                             // neither a request nor a response

  datatype Outcome<+T> = Success(value: T) | Failed(failure: Failure)

  /** `isRetryableError`: no response at all, or a status in the 5xx range.
      A failure without a response is retried whether or not the request was
      sent, since it only tests `error.response`. */
  predicate IsRetryable(f: Failure) {
    !f.HttpError? || (500 <= f.status < 600)
  }

  function Pow2(k: nat): (r: nat)
    ensures r >= 1
  {
    if k == 0 then 1 else 2 * Pow2(k - 1)
  }

  /** The wait before retry `attempt + 1`: `retryDelay * 2^attempt`. */
  function Backoff(attempt: nat): nat {
    RetryDelayMs * Pow2(attempt)
  }

  /** Everything one run of the retry loop produces: the final outcome, how
      many times the operation ran and the waits in between. */
  datatype Run<+T> = Run(outcome: Outcome<T>, attempts: nat, delays: seq<nat>)

  /** `retryWithBackoff(operation, attempt)`, written as its
      recursion on the attempt counter. */
  function RetryFrom<T>(call: nat -> Outcome<T>, attempt: nat): Run<T>
    decreases if attempt < MaxRetries then MaxRetries - attempt else 0
  {
    match call(attempt)
    case Success(v) => Run(Success(v), 1, [])
    case Failed(f) =>
      if attempt < MaxRetries && IsRetryable(f) then
        var rest := RetryFrom(call, attempt + 1);
        Run(rest.outcome, rest.attempts + 1, [Backoff(attempt)] + rest.delays)
      else
        Run(Failed(f), 1, [])
  }

  /** The retry loop as the client runs it: call, and while the failure is
      retryable and retries remain, wait and call again. */
  method RetryWithBackoff<T>(call: nat -> Outcome<T>) returns (outcome: Outcome<T>, attempts: nat, delays: seq<nat>)
    ensures Run(outcome, attempts, delays) == RetryFrom(call, 0)
  {
    var attempt: nat := 0;
    delays := [];
    outcome := call(0);
    while outcome.Failed? && attempt < MaxRetries && IsRetryable(outcome.failure)
      invariant attempt <= MaxRetries
      invariant outcome == call(attempt)
      invariant var rest := RetryFrom(call, attempt);
        RetryFrom(call, 0) == Run(rest.outcome, attempt + rest.attempts, delays + rest.delays)
      decreases MaxRetries - attempt
    {
      delays := delays + [Backoff(attempt)];
      attempt := attempt + 1;
      outcome := call(attempt);
    }
    attempts := attempt + 1;
  }

  /** The attempt at which a run stops: the first one that succeeds, fails
      for good, or uses up the last retry. */
  function StopIndex<T>(call: nat -> Outcome<T>, from: nat): (n: nat)
    ensures from <= n
    ensures from <= MaxRetries ==> n <= MaxRetries
    decreases if from < MaxRetries then MaxRetries - from else 0
  {
    if from >= MaxRetries || call(from).Success? || !IsRetryable(call(from).failure) then from
    else StopIndex(call, from + 1)
  }

  /** The waits of a run that stops at attempt `n`. */
  function Schedule(n: nat): (d: seq<nat>)
    ensures |d| == n && forall k | 0 <= k < n :: d[k] == Backoff(k)
  {
    if n == 0 then [] else Schedule(n - 1) + [Backoff(n - 1)]
  }

  /** An independent account of the retry loop: a run that stops at attempt
      `n` returns the n-th outcome unchanged, after n + 1 calls and the waits
      1000·2^0, …, 1000·2^(n-1). */
  lemma {:induction false} RetryStopsAtFirstFinalAttempt<T>(call: nat -> Outcome<T>, attempt: nat)
    requires attempt <= MaxRetries
    ensures var n := StopIndex(call, attempt);
      RetryFrom(call, attempt) == Run(call(n), n - attempt + 1, Schedule(n)[attempt..])
    decreases MaxRetries - attempt
  {
    var n := StopIndex(call, attempt);
    if n == attempt {
      assert Schedule(n)[attempt..] == [];
    } else {
      RetryStopsAtFirstFinalAttempt(call, attempt + 1);
      assert Schedule(n)[attempt..] == [Backoff(attempt)] + Schedule(n)[attempt + 1..];
    }
  }

  /** The operation runs at least once and at most 1 + MaxRetries = 4 times,
      the k-th wait is 1000·2^k ms, and the waits add up to at most 7000 ms. */
  lemma RetryBounds<T>(call: nat -> Outcome<T>)
    ensures var run := RetryFrom(call, 0);
      && 1 <= run.attempts <= MaxRetries + 1
      && |run.delays| == run.attempts - 1
      && (forall k | 0 <= k < |run.delays| :: run.delays[k] == 1000 * Pow2(k))
      && Sum(run.delays) <= 7000
  {
    RetryStopsAtFirstFinalAttempt(call, 0);
    var n := StopIndex(call, 0);
    assert Schedule(n)[0..] == Schedule(n);
    SumSchedule(n);
  }

  function Sum(s: seq<nat>): nat {
    if s == [] then 0 else s[0] + Sum(s[1..])
  }

  lemma {:induction false} SumSchedule(n: nat)
    requires n <= MaxRetries
    ensures Sum(Schedule(n)) == 1000 * (Pow2(n) - 1) <= 7000
  {
    if n > 0 {
      SumSchedule(n - 1);
      SumAppend(Schedule(n - 1), Backoff(n - 1));
      assert Schedule(n) == Schedule(n - 1) + [Backoff(n - 1)];
      assert Pow2(n) <= 8 by {
        assert Pow2(1) == 2 && Pow2(2) == 4 && Pow2(3) == 8;
      }
    }
  }

  lemma {:induction false} SumAppend(s: seq<nat>, x: nat)
    ensures Sum(s + [x]) == Sum(s) + x
  {
    if s != [] {
      assert (s + [x])[1..] == s[1..] + [x];
      SumAppend(s[1..], x);
    }
  }

  /** A provider that keeps failing transiently is called exactly four times,
      with waits of 1000, 2000 and 4000 ms, and its last failure is returned. */
  lemma PersistentTransientFailure<T>(call: nat -> Outcome<T>)
    requires forall k | 0 <= k <= MaxRetries :: call(k).Failed? && IsRetryable(call(k).failure)
    ensures RetryFrom(call, 0) == Run(call(3), 4, [1000, 2000, 4000])
  {
    RetryStopsAtFirstFinalAttempt(call, 0);
    assert StopIndex(call, 0) == 3 by {
      assert StopIndex(call, 3) == 3;
    }
    assert Pow2(1) == 2 && Pow2(2) == 4;
    assert Schedule(3)[0..] == [1000, 2000, 4000];
  }

  /** A failure that is not retryable (any response outside 5xx: 400, 401,
      429, ...) ends the run at the attempt where it happened. Attempts
      before it all failed transiently. */
  lemma NonRetryableFailureStops<T>(call: nat -> Outcome<T>, n: nat)
    requires n <= MaxRetries
    requires forall k | 0 <= k < n :: call(k).Failed? && IsRetryable(call(k).failure)
    requires call(n).Failed? && !IsRetryable(call(n).failure)
    ensures RetryFrom(call, 0).outcome == call(n)
    ensures RetryFrom(call, 0).attempts == n + 1
  {
    RetryStopsAtFirstFinalAttempt(call, 0);
    StopIndexIsFirstFinal(call, 0, n);
  }

  /** The first successful attempt decides the run: its value is returned
      unchanged and no later attempt runs. */
  lemma FirstSuccessReturned<T>(call: nat -> Outcome<T>, n: nat)
    requires n <= MaxRetries
    requires forall k | 0 <= k < n :: call(k).Failed? && IsRetryable(call(k).failure)
    requires call(n).Success?
    ensures RetryFrom(call, 0).outcome == call(n)
    ensures RetryFrom(call, 0).attempts == n + 1
  {
    RetryStopsAtFirstFinalAttempt(call, 0);
    StopIndexIsFirstFinal(call, 0, n);
  }

  lemma {:induction false} StopIndexIsFirstFinal<T>(call: nat -> Outcome<T>, from: nat, n: nat)
    requires from <= n <= MaxRetries
    requires forall k | from <= k < n :: call(k).Failed? && IsRetryable(call(k).failure)
    requires call(n).Success? || !IsRetryable(call(n).failure)
    ensures StopIndex(call, from) == n
    decreases n - from
  {
    if from < n {
      StopIndexIsFirstFinal(call, from + 1, n);
    }
  }

  /** The reply of the chat-completion endpoint. */
  datatype ChatMessage = ChatMessage(role: string, content: string)
  datatype ReplyMessage = ReplyMessage(role: string, content: Option<string>)
  datatype Choice = Choice(message: Option<ReplyMessage>, finishReason: string)
  datatype Usage = Usage(promptTokens: int, completionTokens: int, totalTokens: int)
  datatype Completion = Completion(id: string, model: string, choices: seq<Choice>, usage: Option<Usage>)

  /** What `sendMessage` puts on the wire: the bearer header and the body. */
  datatype ChatRequest = ChatRequest(authorization: string, model: string, messages: seq<ChatMessage>)

  const InvalidApiKeyMessage := "Invalid API key"
  const RateLimitMessage := "Rate limit exceeded." + " Please try again later."
  const InvalidRequestPrefix := "Invalid request: "
  const UnavailableMessage := "OpenRouter service is " + "temporarily unavailable." + " Please try again later."
  const OpenRouterErrorPrefix := "OpenRouter error: "
  const UnreachableMessage := "Unable to reach OpenRouter." + " Please check your internet connection."
  const RequestErrorPrefix := "Request error: "

  /** `a || b` on an optional string: an absent or empty message is falsy. */
  function OrElse(m: Option<string>, fallback: string): string {
    if m.Some? && m.value != "" then m.value else fallback
  }

  /** The catch block of `sendMessage`: the message of the error it throws
      for the failure that ended the run. */
  function FailureMessage(f: Failure): string {
    match f
    case HttpError(status, detail) =>
      if status == 401 then InvalidApiKeyMessage
      else if status == 429 then RateLimitMessage
      else if status == 400 then InvalidRequestPrefix + OrElse(detail, "Bad request")
      else if status >= 500 then UnavailableMessage
      else OpenRouterErrorPrefix + OrElse(detail, "Unknown error")
    case NoResponse => UnreachableMessage
    case SetupError(m) => RequestErrorPrefix + m
  }

  /** `sendMessage`: run the request through the retry loop, then turn the
      final failure, if any, into its message. */
  method SendMessage(apiKey: string, model: string, messages: seq<ChatMessage>, call: nat -> Outcome<Completion>)
    returns (result: Result<Completion>, sent: ChatRequest, attempts: nat, delays: seq<nat>)
    ensures sent == ChatRequest("Bearer " + apiKey, model, messages)
    ensures var run := RetryFrom(call, 0);
      && attempts == run.attempts && delays == run.delays
      && result == match run.outcome
                   case Success(c) => Ok(c)
                   case Failed(f) => Err(FailureMessage(f))
  {
    sent := ChatRequest("Bearer " + apiKey, model, messages);
    var outcome;
    outcome, attempts, delays := RetryWithBackoff(call);
    match outcome
    case Success(c) => result := Ok(c);
    case Failed(f) => result := Err(FailureMessage(f));
  }

  /** The error kinds the client makes legible to its caller. */
  datatype ErrorKind =
    | InvalidCredential | RateLimited | MalformedRequest | ProviderUnavailable
    | UnexpectedProviderError | NetworkUnreachable | RequestSetupFailed

  function KindOf(f: Failure): ErrorKind {
    match f
    case HttpError(status, _) =>
      if status == 401 then InvalidCredential
      else if status == 429 then RateLimited
      else if status == 400 then MalformedRequest
      else if status >= 500 then ProviderUnavailable
      else UnexpectedProviderError
    case NoResponse => NetworkUnreachable
    case SetupError(_) => RequestSetupFailed
  }

  /** Reading an error message back as a kind. */
  function KindOfMessage(m: string): Option<ErrorKind> {
    if m == InvalidApiKeyMessage then Some(InvalidCredential)
    else if m == RateLimitMessage then Some(RateLimited)
    else if m == UnavailableMessage then Some(ProviderUnavailable)
    else if m == UnreachableMessage then Some(NetworkUnreachable)
    else if StartsWith(m, InvalidRequestPrefix) then Some(MalformedRequest)
    else if StartsWith(m, OpenRouterErrorPrefix) then Some(UnexpectedProviderError)
    else if StartsWith(m, RequestErrorPrefix) then Some(RequestSetupFailed)
    else None
  }

  /** Each failure class surfaces as a message of its own: the message the
      client throws always reads back as the failure's kind. */
  lemma FailureMessageIdentifiesKind(f: Failure)
    ensures KindOfMessage(FailureMessage(f)) == Some(KindOf(f))
  {
    var m := FailureMessage(f);
    match f
    case HttpError(status, detail) =>
      if status == 400 {
        PrefixedDiffers(InvalidRequestPrefix, OrElse(detail, "Bad request"));
        assert StartsWith(m, InvalidRequestPrefix);
      } else if status != 401 && status != 429 && status < 500 {
        PrefixedDiffers(OpenRouterErrorPrefix, OrElse(detail, "Unknown error"));
        assert !StartsWith(m, InvalidRequestPrefix) by {
          assert m[0] == 'O' && InvalidRequestPrefix[0] == 'I';
        }
        assert StartsWith(m, OpenRouterErrorPrefix);
      }
    case NoResponse =>
    case SetupError(e) =>
      PrefixedDiffers(RequestErrorPrefix, e);
      assert m[0] == 'R';
      assert !StartsWith(m, InvalidRequestPrefix) by { assert InvalidRequestPrefix[0] == 'I'; }
      assert !StartsWith(m, OpenRouterErrorPrefix) by { assert OpenRouterErrorPrefix[0] == 'O'; }
      assert StartsWith(m, RequestErrorPrefix);
  }

  /** A prefixed message never equals one of the fixed messages. */
  lemma PrefixedDiffers(prefix: string, detail: string)
    requires prefix in {InvalidRequestPrefix, OpenRouterErrorPrefix, RequestErrorPrefix}
    ensures var m := prefix + detail;
      m != InvalidApiKeyMessage && m != RateLimitMessage && m != UnavailableMessage && m != UnreachableMessage
  {
    var m := prefix + detail;
    assert m[..|prefix|] == prefix;
    if prefix == InvalidRequestPrefix {
      assert m[8] == 'r' && InvalidApiKeyMessage[8] == 'A';
      assert m[0] == 'I' && RateLimitMessage[0] == 'R' && UnavailableMessage[0] == 'O' && UnreachableMessage[0] == 'U';
    } else if prefix == OpenRouterErrorPrefix {
      assert m[11] == 'e' && UnavailableMessage[11] == 's';
      assert m[0] == 'O' && InvalidApiKeyMessage[0] == 'I' && RateLimitMessage[0] == 'R' && UnreachableMessage[0] == 'U';
    } else {
      assert m[1] == 'e' && RateLimitMessage[1] == 'a';
      assert m[0] == 'R' && InvalidApiKeyMessage[0] == 'I' && UnavailableMessage[0] == 'O' && UnreachableMessage[0] == 'U';
    }
  }

  /** A request that the provider answers 401 is made once and ends with
      'Invalid API key'; one that keeps failing with 5xx is made four times
      and ends with the unavailability message. */
  lemma SendMessageScenarios(call: nat -> Outcome<Completion>)
    ensures call(0).Failed? && call(0).failure.HttpError? && call(0).failure.status == 401 ==>
      RetryFrom(call, 0).attempts == 1 && FailureMessage(RetryFrom(call, 0).outcome.failure) == InvalidApiKeyMessage
    ensures (forall k | 0 <= k <= MaxRetries :: call(k) == Failed(HttpError(503, None))) ==>
      RetryFrom(call, 0).attempts == 4 && FailureMessage(RetryFrom(call, 0).outcome.failure) == UnavailableMessage
  {
    if call(0).Failed? && call(0).failure.HttpError? && call(0).failure.status == 401 {
      NonRetryableFailureStops(call, 0);
    }
    if forall k | 0 <= k <= MaxRetries :: call(k) == Failed(HttpError(503, None)) {
      PersistentTransientFailure(call);
    }
  }

  /** The reply of the model-listing endpoint: `data` may be missing. */
  datatype ModelInfo = ModelInfo(id: string, name: string, description: Option<string>, contextLength: Option<int>)
  datatype ModelList = ModelList(data: Option<seq<ModelInfo>>)

  const ModelsFetchFailedMessage := "Failed to fetch available models from OpenRouter"

  /** `getAvailableModels`: one call, never retried. */
  function GetAvailableModels(reply: Outcome<ModelList>): (r: Result<seq<ModelInfo>>)
    ensures r.Ok? <==> reply.Success?
    ensures reply.Success? && reply.value.data.Some? ==> r.value == reply.value.data.value
    ensures reply.Success? && reply.value.data.None? ==> r.value == []
    ensures r.Err? ==> (r.message == InvalidApiKeyMessage <==> reply.failure.HttpError? && reply.failure.status == 401)
    ensures r.Err? ==> r.message in {InvalidApiKeyMessage, ModelsFetchFailedMessage}
  {
    match reply
    case Success(list) => Ok(list.data.GetOr([]))
    case Failed(f) =>
      if f.HttpError? && f.status == 401 then Err(InvalidApiKeyMessage)
      else Err(ModelsFetchFailedMessage)
  }
}
