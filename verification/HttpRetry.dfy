/**
 Bounded HTTP retry policy and the report of one opening: eligibility, delay and
 the record of every send.
 */
module HttpRetry {
  import opened Wrappers
  import opened Utf8

  const MAX_RETRIES: nat := 16
  const MAX_WINDOW_MS: nat := 86_400_000
  const MAX_OBSERVATIONS: nat := 64
  const MAX_CODE_BYTES: nat := 128
  const MAX_REQUEST_ID_BYTES: nat := 256

  datatype Profile = OpenAi | Anthropic

  datatype WaitBasis = RetryAfterMs | RetryAfterSeconds | RetryAfterDate | Backoff

  datatype StopReason =
    | Disabled | Exhausted | PermanentQuota | UnknownRateLimit | HeaderDenied
    | Ineligible | ElapsedLimit | ServerDelayLimit | InvalidInput

  datatype Decision = Stop(reason: StopReason) | Retry(delayMs: nat, basis: WaitBasis)

  /** A structured error code: its text, and whether it is one of the named ones. */
  datatype CodeClass = QuotaCode | RateLimitCode | OtherCode
  datatype ErrorCode = ErrorCode(text: string, class_: CodeClass)

  datatype ShouldRetry = SaysFalse | SaysTrue | Silent

  datatype Hint = Hint(ms: nat, basis: WaitBasis)

  /** What a decision is taken on; `hint` is the server's delay, if it gave a usable one. */
  datatype RetryInput = RetryInput(
    retriesUsed: nat,
    elapsedMs: nat,
    jitter: real,
    status: nat,
    code: Option<ErrorCode>,
    shouldRetry: ShouldRetry,
    hint: Option<Hint>)

  datatype Policy = Policy(maxRetries: nat, maxElapsedMs: nat, maxServerDelayMs: nat, profile: Profile) {
    predicate Valid() {
      && maxRetries <= MAX_RETRIES && maxElapsedMs <= MAX_WINDOW_MS && maxServerDelayMs <= maxElapsedMs
      && (maxRetries > 0 ==> maxElapsedMs > 0 && maxServerDelayMs > 0)
    }

    function RemainingMs(elapsedMs: nat): (r: Option<nat>)
      ensures r.Some? <==> elapsedMs < maxElapsedMs
      ensures r.Some? ==> r.value == maxElapsedMs - elapsedMs
    {
      if elapsedMs < maxElapsedMs then Some(maxElapsedMs - elapsedMs) else None
    }

    function Decide(input: RetryInput): Decision {
      if input.code.Some? && input.code.value.class_.QuotaCode? then Stop(PermanentQuota)
      else if maxRetries == 0 then Stop(Disabled)
      else if !(100 <= input.status <= 599) || !(0.75 <= input.jitter <= 1.0) then Stop(InvalidInput)
      else if input.retriesUsed >= maxRetries then Stop(Exhausted)
      else if 200 <= input.status < 300 then Stop(Ineligible)
      else if input.status == 429 && !(input.code.Some? && input.code.value.class_.RateLimitCode?) then Stop(UnknownRateLimit)
      else if input.shouldRetry.SaysFalse? then Stop(HeaderDenied)
      else if input.shouldRetry.Silent? && !RetriableStatus(input.status) then Stop(Ineligible)
      else if profile.OpenAi? && input.hint.Some? && input.hint.value.ms > 120_000 then Stop(ServerDelayLimit)
      else if input.hint.Some? && input.hint.value.ms > maxServerDelayMs then Stop(ServerDelayLimit)
      else
        var delay := if input.hint.Some? then input.hint.value.ms else BackoffMs(input.retriesUsed, input.jitter);
        var basis := if input.hint.Some? then input.hint.value.basis else Backoff;
        var remaining := RemainingMs(input.elapsedMs);
        if remaining.None? || delay >= remaining.value then Stop(ElapsedLimit) else Retry(delay, basis)
    }
  }

  predicate RetriableStatus(status: nat) {
    status == 408 || status == 409 || status == 429 || status >= 500
  }

  /** The undisturbed delay: doubling from half a second, at most eight seconds. */
  function BaseMs(retriesUsed: nat): nat {
    match retriesUsed
    case 0 => 500
    case 1 => 1000
    case 2 => 2000
    case 3 => 4000
    case _ => 8000
  }

  function Ceil(x: real): int {
    -((-x).Floor)
  }

  /** That delay times a multiplier from [0.75, 1], rounded up. */
  function BackoffMs(retriesUsed: nat, jitter: real): (ms: nat)
    requires 0.75 <= jitter <= 1.0
    ensures 375 <= ms <= 8000 && ms <= BaseMs(retriesUsed) && 4 * ms >= 3 * BaseMs(retriesUsed)
  {
    Ceil(BaseMs(retriesUsed) as real * jitter)
  }

  /** Nothing in a call that may be retried forbids it. */
  predicate Retriable(policy: Policy, input: RetryInput) {
    && (input.code.Some? ==> !input.code.value.class_.QuotaCode?)
    && input.retriesUsed < policy.maxRetries
    && 100 <= input.status <= 599 && !(200 <= input.status < 300)
    && 0.75 <= input.jitter <= 1.0
    && (input.status == 429 ==> input.code.Some? && input.code.value.class_.RateLimitCode?)
    && (input.shouldRetry.SaysTrue? || (input.shouldRetry.Silent? && RetriableStatus(input.status)))
  }

  /** A server's delay is followed exactly or not at all. */
  predicate HintAccepted(policy: Policy, hint: Hint) {
    hint.ms <= policy.maxServerDelayMs && (policy.profile.OpenAi? ==> hint.ms <= 120_000)
  }

  /**
   When a call is retried, and after how long: exactly when it may be, the server's
   delay is acceptable, and the delay leaves some of the window.
   */
  lemma RetriedExactlyWhen(policy: Policy, input: RetryInput, delay: nat, basis: WaitBasis)
    ensures policy.Decide(input) == Retry(delay, basis)
            <==> && Retriable(policy, input)
                 && input.elapsedMs + delay < policy.maxElapsedMs
                 && (match input.hint
                     case Some(hint) => HintAccepted(policy, hint) && delay == hint.ms && basis == hint.basis
                     case None => delay == BackoffMs(input.retriesUsed, input.jitter) && basis == Backoff)
  {
  }

  /** Half a second doubled for each earlier retry, at most four times. */
  function Doubled(retries: nat): nat {
    if retries == 0 then 500 else 2 * Doubled(retries - 1)
  }

  function Least(a: nat, b: nat): nat {
    if a <= b then a else b
  }

  /** A backoff is its base times the multiplier, rounded up to a whole millisecond. */
  lemma BackoffIsExact(retriesUsed: nat, jitter: real, ms: nat)
    requires 0.75 <= jitter <= 1.0
    ensures BackoffMs(retriesUsed, jitter) == ms
            <==> ms as real - 1.0 < Doubled(Least(retriesUsed, 4)) as real * jitter <= ms as real
  {
    BaseIsDoubled(retriesUsed);
    CeilIsLeast(BaseMs(retriesUsed) as real * jitter, ms);
  }

  lemma BaseIsDoubled(retriesUsed: nat)
    ensures BaseMs(retriesUsed) == Doubled(Least(retriesUsed, 4))
  {
    assert Doubled(1) == 1000;
    assert Doubled(2) == 2000;
    assert Doubled(3) == 4000;
    assert Doubled(4) == 8000;
  }

  lemma CeilIsLeast(x: real, n: int)
    ensures Ceil(x) == n <==> n as real - 1.0 < x <= n as real
  {
  }

  /** Why a call is not retried: the first of these that holds, in this order. */
  predicate StopsFor(policy: Policy, input: RetryInput, reason: StopReason) {
    match reason
    case PermanentQuota => HasCode(input, QuotaCode)
    case Disabled => !HasCode(input, QuotaCode) && policy.maxRetries == 0
    case InvalidInput => MayDecide(policy, input) && !IsReadable(input)
    case Exhausted => MayDecide(policy, input) && IsReadable(input) && input.retriesUsed >= policy.maxRetries
    case UnknownRateLimit => MayRetry(policy, input) && input.status == 429 && !HasCode(input, RateLimitCode)
    case HeaderDenied => MayRetry(policy, input) && IsKnown(input) && input.shouldRetry.SaysFalse?
    case Ineligible =>
      || (MayDecide(policy, input) && IsReadable(input) && input.retriesUsed < policy.maxRetries && 200 <= input.status <= 299)
      || (MayRetry(policy, input) && IsKnown(input) && input.shouldRetry.Silent? && input.status < 500 && input.status !in {408, 409, 429})
    case ServerDelayLimit => Retriable(policy, input) && input.hint.Some? && !HintAccepted(policy, input.hint.value)
    case ElapsedLimit =>
      && Retriable(policy, input) && (input.hint.Some? ==> HintAccepted(policy, input.hint.value))
      && input.elapsedMs + (if input.hint.Some? then input.hint.value.ms else BackoffMs(input.retriesUsed, input.jitter)) >= policy.maxElapsedMs
  }

  predicate HasCode(input: RetryInput, class_: CodeClass) {
    input.code.Some? && input.code.value.class_ == class_
  }

  predicate MayDecide(policy: Policy, input: RetryInput) {
    !HasCode(input, QuotaCode) && policy.maxRetries > 0
  }

  predicate IsReadable(input: RetryInput) {
    100 <= input.status <= 599 && 0.75 <= input.jitter <= 1.0
  }

  /** A failed call with retries left. */
  predicate MayRetry(policy: Policy, input: RetryInput) {
    MayDecide(policy, input) && IsReadable(input) && input.retriesUsed < policy.maxRetries && !(200 <= input.status <= 299)
  }

  predicate IsKnown(input: RetryInput) {
    input.status == 429 ==> HasCode(input, RateLimitCode)
  }

  lemma StatusIsRetriable(status: nat)
    ensures RetriableStatus(status) <==> status in {408, 409, 429} || status >= 500
  {
  }

  lemma StopsExactlyWhen(policy: Policy, input: RetryInput, reason: StopReason)
    ensures policy.Decide(input) == Stop(reason) <==> StopsFor(policy, input, reason)
  {
    StatusIsRetriable(input.status);
    RetriableExactlyWhen(policy, input);
  }

  lemma RetriableExactlyWhen(policy: Policy, input: RetryInput)
    ensures Retriable(policy, input)
            <==> && MayRetry(policy, input) && IsKnown(input) && !input.shouldRetry.SaysFalse?
                 && (input.shouldRetry.SaysTrue? || input.status in {408, 409, 429} || input.status >= 500)
  {
    StatusIsRetriable(input.status);
  }

  /** Up to 16 retries and a day's window; with retries enabled both bounds are positive. */
  lemma ValidExactlyWhen(policy: Policy)
    ensures policy.Valid()
            <==> && policy.maxRetries <= 16 && policy.maxServerDelayMs <= policy.maxElapsedMs <= 24 * 60 * 60 * 1000
                 && (policy.maxRetries > 0 ==> policy.maxServerDelayMs > 0)
  {
  }

  // -------------------------------------------------------------------- the report

  datatype Observation = Observation(
    attempt: nat,
    status: Option<nat>,
    errorCode: Option<string>,
    requestId: Option<string>,
    truncated: bool,
    decision: Option<Decision>)

  predicate FieldsFit(o: Observation) {
    && (o.errorCode.Some? ==> Utf8Length(o.errorCode.value) <= MAX_CODE_BYTES)
    && (o.requestId.Some? ==> Utf8Length(o.requestId.value) <= MAX_REQUEST_ID_BYTES)
  }

  lemma FitsExactlyWhen(o: Observation)
    ensures FieldsFit(o) <==> (o.errorCode.None? || Utf8Length(o.errorCode.value) <= 128) && (o.requestId.None? || Utf8Length(o.requestId.value) <= 256)
  {
  }

  method BoundedField(field: Option<string>, limit: nat) returns (r: Option<string>, truncated: bool)
    ensures r.Some? <==> field.Some?
    ensures r.Some? ==> IsCut(field.value, limit, r.value)
    ensures truncated <==> r != field
  {
    if field.None? {
      return None, false;
    }
    var prefix, cut := Bounded(field.value, limit);
    assert !cut ==> prefix == field.value;
    return Some(prefix), cut;
  }

  /** An observation with its texts cut to their limits. */
  method NewObservation(attempt: nat, status: Option<nat>, code: Option<string>, requestId: Option<string>, decision: Option<Decision>)
    returns (o: Observation)
    ensures FieldsFit(o)
    ensures o.attempt == attempt && o.status == status && o.decision == decision
    ensures (o.errorCode.Some? <==> code.Some?) && (code.Some? ==> IsCut(code.value, 128, o.errorCode.value))
    ensures (o.requestId.Some? <==> requestId.Some?) && (requestId.Some? ==> IsCut(requestId.value, 256, o.requestId.value))
    ensures !o.truncated <==> o.errorCode == code && o.requestId == requestId
  {
    var shortCode, cutCode := BoundedField(code, MAX_CODE_BYTES);
    var shortId, cutId := BoundedField(requestId, MAX_REQUEST_ID_BYTES);
    return Observation(attempt, status, shortCode, shortId, cutCode || cutId, decision);
  }

  class RetryReport {
    var observations: seq<Observation>
    var terminalStop: Option<StopReason>

    constructor ()
      ensures observations == [] && terminalStop == None
    {
      observations, terminalStop := [], None;
    }

    /** Add the next attempt, unless it is out of sequence, oversized or one too many. */
    method Push(o: Observation) returns (ok: bool)
      modifies this`observations
      ensures ok <==> |old(observations)| < 64 && o.attempt == |old(observations)| + 1 && FieldsFit(o)
      ensures observations == if ok then old(observations) + [o] else old(observations)
    {
      ok := !(|observations| >= MAX_OBSERVATIONS || o.attempt != |observations| + 1 || !FieldsFit(o));
      if ok {
        observations := observations + [o];
      }
    }

    method Finish(reason: StopReason)
      modifies this`terminalStop
      ensures terminalStop == Some(reason)
    {
      terminalStop := Some(reason);
    }
  }
}
