/**
 The opening retry loops of the two clients. Every send, clock reading and body
 read of an attempt is given by an environment, so the statements hold for every
 behaviour of server, network and clock.
 */
module OpeningClients {
  import opened Wrappers
  import opened HttpRetry
  import opened Utf8

  const MAX_TRANSPORT_RETRIES: nat := 16

  datatype Sent =
    | TransportError(eligible: bool)
    | Response(status: nat, requestId: Option<string>, code: Option<ErrorCode>, shouldRetry: ShouldRetry, hint: Option<Hint>)

  /**
   One attempt: the elapsed time when it starts, whether its send or its body read
   outlives a window, what came back, and the elapsed times read afterwards.
   */
  datatype Attempt = Attempt(
    startMs: nat,
    sendExpires: bool,
    sent: Sent,
    bodyMs: nat,
    bodyExpires: bool,
    decideMs: nat,
    jitter: real,
    checkMs: nat,
    wokenMs: nat)

  type Environment = nat -> Attempt

  datatype OpeningError = BudgetExhausted | Http(status: nat) | BodyBudget(status: nat) | Transport

  datatype Settings = Settings(policy: Policy, transportRetries: nat) {
    predicate Valid() { policy.Valid() && transportRetries <= MAX_TRANSPORT_RETRIES }

    predicate Windowed() { policy.maxRetries > 0 }

    function MaxRetries(): nat {
      if transportRetries < policy.maxRetries then policy.maxRetries else transportRetries
    }
  }

  predicate IsSuccess(status: nat) {
    200 <= status < 300
  }

  /** A transport failure is retried at once, on the counter it shares with status retries. */
  function TransportDecision(settings: Settings, retriesUsed: nat, eligible: bool): Decision {
    if !eligible then Stop(Ineligible)
    else if retriesUsed < settings.transportRetries then Retry(0, Backoff)
    else Stop(Exhausted)
  }

  /** An eligible failure is retried at once while transport retries are left; any other stops. */
  lemma TransportExactlyWhen(settings: Settings, retriesUsed: nat, eligible: bool, decision: Decision)
    ensures TransportDecision(settings, retriesUsed, eligible) == decision
            <==> match decision
                 case Retry(delay, basis) => eligible && retriesUsed < settings.transportRetries && delay == 0 && basis == Backoff
                 case Stop(reason) => if eligible then retriesUsed >= settings.transportRetries && reason == Exhausted else reason == Ineligible
  {
  }

  /** Settings bound both kinds of retries by 16. */
  lemma SettingsExactlyWhen(settings: Settings)
    ensures settings.Valid() <==> settings.policy.Valid() && settings.transportRetries <= 16
  {
  }

  function StatusDecision(settings: Settings, retriesUsed: nat, a: Attempt): Decision
    requires a.sent.Response?
  {
    settings.policy.Decide(RetryInput(retriesUsed, a.decideMs, a.jitter, a.sent.status, a.sent.code, a.sent.shouldRetry, a.sent.hint))
  }

  /** The decision on an attempt that was answered in time and not successful. */
  function DecisionOn(settings: Settings, retriesUsed: nat, a: Attempt): Decision {
    if a.sent.TransportError? then TransportDecision(settings, retriesUsed, a.sent.eligible)
    else StatusDecision(settings, retriesUsed, a)
  }

  lemma RetryIsCounted(settings: Settings, retriesUsed: nat, a: Attempt)
    requires DecisionOn(settings, retriesUsed, a).Retry?
    ensures retriesUsed < settings.MaxRetries() && !(a.sent.Response? && IsSuccess(a.sent.status))
    ensures var delay := DecisionOn(settings, retriesUsed, a).delayMs;
            settings.Windowed() ==> delay == 0 || a.decideMs + delay < settings.policy.maxElapsedMs
  {
  }

  // ------------------------------------------------------------------- the outcome

  /** Attempt `k` was started in time, and retried after this delay. */
  ghost predicate RetriedAt(settings: Settings, env: Environment, k: nat, delay: nat) {
    && DecisionOn(settings, k, env(k)).Retry? && DecisionOn(settings, k, env(k)).delayMs == delay
    && (settings.Windowed() ==> env(k).startMs < settings.policy.maxElapsedMs)
  }

  /** The first `n` observations are attempts 1, 2, 3, ..., each retried as the environment had it. */
  ghost predicate Retried(settings: Settings, env: Environment, observations: seq<Observation>, n: nat) {
    n <= |observations|
    && forall k :: 0 <= k < n ==>
         observations[k].attempt == k + 1
         && observations[k].decision.Some? && observations[k].decision.value.Retry?
         && RetriedAt(settings, env, k, observations[k].decision.value.delayMs)
  }

  /** Each wait followed a retry. */
  ghost predicate WaitsFit(settings: Settings, env: Environment, waits: seq<nat>) {
    forall k :: 0 <= k < |waits| ==> RetriedAt(settings, env, k, waits[k])
  }

  /** The window ended while this attempt was sent, or while its error body was read. */
  ghost predicate Expired(settings: Settings, a: Attempt) {
    settings.Windowed() && (a.sendExpires || a.bodyExpires || a.bodyMs >= settings.policy.maxElapsedMs)
  }

  /** The window left no room for the retry after this attempt, before, during or after its delay. */
  ghost predicate WindowOver(settings: Settings, env: Environment, k: nat, delay: nat) {
    var max := settings.policy.maxElapsedMs;
    settings.Windowed() && (env(k).checkMs + delay >= max || env(k).wokenMs >= max || env(k + 1).startMs >= max)
  }

  /** How the last attempt `k` failed: what was decided on it, the reason to stop and the error reported. */
  ghost predicate StoppedAt(settings: Settings, env: Environment, k: nat, decision: Option<Decision>, stop: Option<StopReason>,
                            error: OpeningError)
  {
    var a := env(k);
    && decision.Some?
    && match decision.value
       case Retry(delay, _) =>
         stop == Some(ElapsedLimit) && RetriedAt(settings, env, k, delay) && WindowOver(settings, env, k, delay) && error == ErrorOf(a.sent)
       case Stop(reason) =>
         && stop == Some(reason)
         && (|| (DecisionOn(settings, k, a) == Stop(reason) && error == ErrorOf(a.sent) && !(a.sent.Response? && IsSuccess(a.sent.status)))
             || (Expired(settings, a) && reason == ElapsedLimit
                 && error == if a.sendExpires then BudgetExhausted else if a.sent.Response? then BodyBudget(a.sent.status) else Transport))
  }

  /**
   How an opening ends. Every send is observed once, in order; all but the last
   were retried; there is a reason to stop exactly if it was not successful.
   */
  ghost predicate OpeningOk(settings: Settings, env: Environment, observations: seq<Observation>, stop: Option<StopReason>,
                            sends: nat, waits: seq<nat>, error: Option<OpeningError>) {
    && sends == |observations| <= settings.MaxRetries() + 1
    && (sends > 0 ==> Retried(settings, env, observations, sends - 1) && observations[sends - 1].attempt == sends)
    && (error.None? ==> stop.None? && sends > 0 && observations[sends - 1].decision.None?
                        && env(sends - 1).sent.Response? && IsSuccess(env(sends - 1).sent.status))
    && (error.Some? ==>
          if sends == 0 then settings.Windowed() && env(0).startMs >= settings.policy.maxElapsedMs
                             && stop == Some(ElapsedLimit) && error == Some(BudgetExhausted)
          else StoppedAt(settings, env, sends - 1, observations[sends - 1].decision, stop, error.value))
    && sends - 1 <= |waits| <= sends
    && WaitsFit(settings, env, waits)
  }

  // --------------------------------------------------------------- what is observed

  /** A text cut to its limit, if there is one. */
  ghost predicate IsShort(text: Option<string>, limit: nat, short: Option<string>) {
    (short.Some? <==> text.Some?) && (text.Some? ==> IsCut(text.value, limit, short.value))
  }

  /** What an observation holds of its attempt: nothing of one without an answer, else status and request id, and the code unless it was not read. */
  ghost predicate IsObserved(settings: Settings, o: Observation, a: Attempt) {
    if a.sent.TransportError? || (settings.Windowed() && a.sendExpires) then o.status.None? && o.errorCode.None? && o.requestId.None?
    else
      && o.status == Some(a.sent.status) && IsShort(a.sent.requestId, 256, o.requestId)
      && (if IsSuccess(a.sent.status) || (o.decision == Some(Stop(ElapsedLimit)) && Expired(settings, a) && o.errorCode.None?)
          then o.errorCode.None?
          else IsShort(if a.sent.code.Some? then Some(a.sent.code.value.text) else None, 128, o.errorCode))
  }

  ghost predicate AreObserved(settings: Settings, env: Environment, observations: seq<Observation>) {
    forall k :: 0 <= k < |observations| ==> IsObserved(settings, observations[k], env(k))
  }

  lemma ObservesMore(settings: Settings, env: Environment, before: seq<Observation>, after: seq<Observation>)
    requires AreObserved(settings, env, before) && |after| == |before| + 1 && after[..|before|] == before
    requires IsObserved(settings, after[|before|], env(|before|))
    ensures AreObserved(settings, env, after)
  {
    forall k | 0 <= k < |before| ensures after[k] == before[k] { assert after[k] == after[..|before|][k]; }
  }

  // ---------------------------------------------------------------------- the waits

  function SumUpTo(waits: seq<nat>, n: nat): nat
    requires n <= |waits|
  {
    if n == 0 then 0 else SumUpTo(waits, n - 1) + waits[n - 1]
  }

  /** The clock does not run backwards, and from each attempt to the next advances at least by the wait between them. */
  ghost predicate Advances(env: Environment, waits: seq<nat>) {
    && (forall k :: 0 <= k < |waits| ==> env(k).startMs <= env(k).decideMs)
    && (forall k :: 0 <= k < |waits| - 1 ==> env(k).decideMs + waits[k] <= env(k + 1).startMs)
  }

  lemma {:induction false} WaitsPassed(env: Environment, waits: seq<nat>, n: nat)
    requires n < |waits| && Advances(env, waits)
    ensures SumUpTo(waits, n) <= env(n).startMs
  {
    if n > 0 { WaitsPassed(env, waits, n - 1); }
  }

  /** With status retries enabled all waits of one opening together are shorter than its window. */
  lemma WaitsStayInWindow(settings: Settings, env: Environment, waits: seq<nat>)
    requires settings.Valid() && settings.Windowed() && WaitsFit(settings, env, waits) && Advances(env, waits)
    ensures SumUpTo(waits, |waits|) < settings.policy.maxElapsedMs
  {
    if waits != [] {
      var n := |waits| - 1;
      WaitsPassed(env, waits, n);
      assert RetriedAt(settings, env, n, waits[n]);
      RetryIsCounted(settings, n, env(n));
    }
  }

  /** In a window, on such a clock, all waits together are shorter than it. */
  ghost predicate InWindow(settings: Settings, env: Environment, waits: seq<nat>) {
    settings.Windowed() && Advances(env, waits) ==> SumUpTo(waits, |waits|) < settings.policy.maxElapsedMs
  }

  lemma FittingWaitsStayInWindow(settings: Settings, env: Environment, waits: seq<nat>)
    requires settings.Valid() && WaitsFit(settings, env, waits)
    ensures InWindow(settings, env, waits)
  {
    if settings.Windowed() && Advances(env, waits) { WaitsStayInWindow(settings, env, waits); }
  }

  /** No opening sends more than seventeen times. */
  lemma SendsAreBounded(settings: Settings, env: Environment, observations: seq<Observation>, stop: Option<StopReason>,
                        sends: nat, waits: seq<nat>, error: Option<OpeningError>)
    requires settings.Valid() && OpeningOk(settings, env, observations, stop, sends, waits, error)
    ensures sends <= settings.MaxRetries() + 1 <= 17
    ensures forall k :: 0 <= k < sends ==> observations[k].attempt == k + 1
  {
  }

  /** An opening that goes on: so far every attempt was retried after its delay. */
  ghost predicate InProgress(settings: Settings, env: Environment, observations: seq<Observation>, waits: seq<nat>) {
    && |observations| == |waits| <= settings.MaxRetries()
    && Retried(settings, env, observations, |observations|) && WaitsFit(settings, env, waits)
  }

  /** One more attempt, retried. */
  lemma RetryKeeps(settings: Settings, env: Environment, observations: seq<Observation>, more: seq<Observation>, waits: seq<nat>, delay: nat)
    requires InProgress(settings, env, observations, waits)
    requires |more| == |observations| + 1 && more[..|observations|] == observations
    requires more[|observations|].attempt == |more|
    requires DecisionOn(settings, |observations|, env(|observations|)).Retry?
    requires more[|observations|].decision == Some(DecisionOn(settings, |observations|, env(|observations|)))
    requires delay == DecisionOn(settings, |observations|, env(|observations|)).delayMs
    requires settings.Windowed() ==> env(|observations|).startMs < settings.policy.maxElapsedMs
    ensures InProgress(settings, env, more, waits + [delay])
  {
    RetryIsCounted(settings, |observations|, env(|observations|));
    forall k | 0 <= k < |observations| ensures more[k] == observations[k] {
      assert more[k] == more[..|observations|][k];
    }
  }

  /** The delay of this decision was slept, unless the client checks the window again and it no longer fits. */
  predicate Slept(settings: Settings, a: Attempt, decision: Option<Decision>, rechecks: bool) {
    IsRetry(decision) && (rechecks ==> FitsAgain(settings, a, decision.value.delayMs))
  }

  /** How a client's opening ends: as described, with exactly the waits it slept, all within the window. */
  ghost predicate Opened(settings: Settings, env: Environment, observations: seq<Observation>, stop: Option<StopReason>,
                         sends: nat, waits: seq<nat>, error: Option<OpeningError>, rechecks: bool) {
    && OpeningOk(settings, env, observations, stop, sends, waits, error)
    && |waits| == (if sends == 0 then 0
                   else if Slept(settings, env(sends - 1), observations[sends - 1].decision, rechecks) then sends
                   else sends - 1)
    && InWindow(settings, env, waits)
  }

  /** An opening that ends before its first send. */
  lemma EndsUnsent(settings: Settings, env: Environment, rechecks: bool)
    requires settings.Valid() && settings.Windowed() && env(0).startMs >= settings.policy.maxElapsedMs
    ensures Opened(settings, env, [], Some(ElapsedLimit), 0, [], Some(BudgetExhausted), rechecks)
  {
    FittingWaitsStayInWindow(settings, env, []);
  }

  /** An opening that ends with one more attempt. */
  lemma EndsHere(settings: Settings, env: Environment, before: seq<Observation>, after: seq<Observation>, waits: seq<nat>,
                 stop: Option<StopReason>, error: Option<OpeningError>, rechecks: bool)
    requires settings.Valid() && InProgress(settings, env, before, waits)
    requires |after| == |before| + 1 && after[..|before|] == before && after[|before|].attempt == |after|
    requires !Slept(settings, env(|before|), after[|before|].decision, rechecks)
    requires match error
             case None => stop.None? && after[|before|].decision.None?
                          && env(|before|).sent.Response? && IsSuccess(env(|before|).sent.status)
             case Some(e) => StoppedAt(settings, env, |before|, after[|before|].decision, stop, e)
    ensures Opened(settings, env, after, stop, |after|, waits, error, rechecks)
  {
    forall k | 0 <= k < |before| ensures after[k] == before[k] {
      assert after[k] == after[..|before|][k];
    }
    FittingWaitsStayInWindow(settings, env, waits);
  }

  /** An opening that ends after a wait. */
  lemma EndsAfterWait(settings: Settings, env: Environment, observations: seq<Observation>, waits: seq<nat>,
                      stop: Option<StopReason>, error: OpeningError, rechecks: bool)
    requires settings.Valid() && InProgress(settings, env, observations, waits) && observations != []
    requires Slept(settings, env(|observations| - 1), observations[|observations| - 1].decision, rechecks)
    requires StoppedAt(settings, env, |observations| - 1, observations[|observations| - 1].decision, stop, error)
    ensures Opened(settings, env, observations, stop, |observations|, waits, Some(error), rechecks)
  {
    FittingWaitsStayInWindow(settings, env, waits);
  }

  /** The window ended between a wait and the next attempt. */
  lemma EndsBeforeNext(settings: Settings, env: Environment, observations: seq<Observation>, waits: seq<nat>, rechecks: bool)
    requires settings.Valid() && settings.Windowed() && InProgress(settings, env, observations, waits) && observations != []
    requires env(|observations|).startMs >= settings.policy.maxElapsedMs
    requires Slept(settings, env(|observations| - 1), observations[|observations| - 1].decision, rechecks)
    ensures Opened(settings, env, observations, Some(ElapsedLimit), |observations|, waits,
                   Some(ErrorOf(env(|observations| - 1).sent)), rechecks)
  {
    var k := |observations| - 1;
    assert RetriedAt(settings, env, k, observations[k].decision.value.delayMs);
    EndsAfterWait(settings, env, observations, waits, Some(ElapsedLimit), ErrorOf(env(k).sent), rechecks);
  }

  predicate IsRetry(decision: Option<Decision>) {
    decision.Some? && decision.value.Retry?
  }

  /** The delay still leaves some of the window when it is checked again. */
  predicate FitsAgain(settings: Settings, a: Attempt, delay: nat) {
    settings.Windowed() ==> a.checkMs + delay < settings.policy.maxElapsedMs
  }

  // ---------------------------------------------------------------------- the loops

  method Record(report: RetryReport, attempt: nat, status: Option<nat>, code: Option<ErrorCode>, requestId: Option<string>,
                decision: Option<Decision>)
    requires |report.observations| < 17 && attempt == |report.observations| + 1
    modifies report`observations
    ensures |report.observations| == attempt && report.observations[..attempt - 1] == old(report.observations)
    ensures report.observations[attempt - 1].attempt == attempt
    ensures var o := report.observations[attempt - 1];
            && o.decision == decision && o.status == status && IsShort(requestId, 256, o.requestId)
            && IsShort(if code.Some? then Some(code.value.text) else None, 128, o.errorCode)
  {
    var o := NewObservation(attempt, status, if code.Some? then Some(code.value.text) else None, requestId, decision);
    var pushed := report.Push(o);
    assert pushed;
  }

  /** What an attempt that is not retried comes to. */
  function ErrorOf(sent: Sent): OpeningError {
    if sent.TransportError? then Transport else Http(sent.status)
  }

  function RequestIdOf(sent: Sent): Option<string> {
    if sent.Response? then sent.requestId else None
  }

  function CodeOf(sent: Sent): Option<ErrorCode> {
    if sent.Response? then sent.code else None
  }

  function StatusOf(sent: Sent): Option<nat> {
    if sent.Response? then Some(sent.status) else None
  }

  /** Decide on an unsuccessful attempt and record it, with the reason if it is the last. */
  method DecideOn(report: RetryReport, settings: Settings, retriesUsed: nat, a: Attempt, ghost env: Environment) returns (decision: Decision)
    requires a == env(retriesUsed) && AreObserved(settings, env, report.observations)
    requires !(settings.Windowed() && a.sendExpires) && !(a.sent.Response? && IsSuccess(a.sent.status))
    requires settings.Valid() && retriesUsed == |report.observations| <= settings.MaxRetries()
    modifies report
    ensures decision == DecisionOn(settings, retriesUsed, a)
    ensures |report.observations| == retriesUsed + 1 && report.observations[..retriesUsed] == old(report.observations)
    ensures report.observations[retriesUsed].attempt == retriesUsed + 1 && report.observations[retriesUsed].decision == Some(decision)
    ensures AreObserved(settings, env, report.observations)
    ensures report.terminalStop == if decision.Stop? then Some(decision.reason) else old(report.terminalStop)
    ensures decision.Retry? ==> retriesUsed < settings.MaxRetries()
  {
    decision := DecisionOn(settings, retriesUsed, a);
    Record(report, retriesUsed + 1, StatusOf(a.sent), CodeOf(a.sent), RequestIdOf(a.sent), Some(decision));
    ObservesMore(settings, env, old(report.observations), report.observations);
    if decision.Stop? {
      report.Finish(decision.reason);
    } else {
      RetryIsCounted(settings, retriesUsed, a);
    }
  }

  /** One attempt: send, record what came of it, and decide whether to send again. */
  method OpenAiAttempt(report: RetryReport, settings: Settings, env: Environment, ghost waits: seq<nat>)
    returns (goesOn: bool, error: Option<OpeningError>, ghost slept: seq<nat>)
    requires settings.Valid() && report.terminalStop == None
    requires InProgress(settings, env, report.observations, waits) && AreObserved(settings, env, report.observations)
    requires settings.Windowed() ==> env(|report.observations|).startMs < settings.policy.maxElapsedMs
    modifies report
    ensures |report.observations| == |old(report.observations)| + 1 && AreObserved(settings, env, report.observations)
    ensures goesOn ==> report.terminalStop == None && error == Some(ErrorOf(env(|old(report.observations)|).sent))
                       && InProgress(settings, env, report.observations, slept)
    ensures !goesOn ==> Opened(settings, env, report.observations, report.terminalStop, |report.observations|, slept, error, false)
  {
    var windowed, retriesUsed := settings.policy.maxRetries > 0, |report.observations|;
    var a := env(retriesUsed);
    ghost var before := report.observations;
    goesOn, slept := false, waits;
    if windowed && a.sendExpires {
      report.Finish(ElapsedLimit);
      Record(report, retriesUsed + 1, None, None, None, Some(Stop(ElapsedLimit)));
      error := Some(BudgetExhausted);
      ObservesMore(settings, env, before, report.observations);
    } else if a.sent.Response? && IsSuccess(a.sent.status) {
      Record(report, retriesUsed + 1, Some(a.sent.status), None, a.sent.requestId, None);
      error := None;
      ObservesMore(settings, env, before, report.observations);
    } else if a.sent.Response? && windowed && a.bodyExpires {
      report.Finish(ElapsedLimit);
      Record(report, retriesUsed + 1, Some(a.sent.status), None, a.sent.requestId, Some(Stop(ElapsedLimit)));
      error := Some(BodyBudget(a.sent.status));
      ObservesMore(settings, env, before, report.observations);
    } else {
      var decision := DecideOn(report, settings, retriesUsed, a, env);
      error := Some(ErrorOf(a.sent));
      if decision.Retry? {
        RetryKeeps(settings, env, before, report.observations, waits, decision.delayMs);
        return true, error, waits + [decision.delayMs];
      }
    }
    EndsHere(settings, env, before, report.observations, waits, report.terminalStop, error, false);
  }

  method OpenAiOpen(settings: Settings, env: Environment) returns (error: Option<OpeningError>, report: RetryReport, sends: nat, ghost waits: seq<nat>)
    requires settings.Valid()
    ensures fresh(report)
    ensures Opened(settings, env, report.observations, report.terminalStop, sends, waits, error, false)
    ensures AreObserved(settings, env, report.observations)
  {
    report := new RetryReport();
    error, sends, waits := None, 0, [];
    while true
      invariant fresh(report) && report.terminalStop == None
      invariant error == if sends == 0 then None else Some(ErrorOf(env(sends - 1).sent))
      invariant sends == |report.observations|
      invariant InProgress(settings, env, report.observations, waits) && AreObserved(settings, env, report.observations)
      decreases settings.MaxRetries() - sends
    {
      if settings.policy.maxRetries > 0 && settings.policy.RemainingMs(env(sends).startMs).None? {
        report.Finish(ElapsedLimit);
        if sends == 0 { EndsUnsent(settings, env, false); } else { EndsBeforeNext(settings, env, report.observations, waits, false); }
        error := if error.Some? then error else Some(BudgetExhausted);
        return;
      }
      sends := sends + 1;
      var goesOn: bool;
      goesOn, error, waits := OpenAiAttempt(report, settings, env, waits);
      if !goesOn {
        return;
      }
    }
  }

  /** The check before a sleep. */
  method CheckedAgain(settings: Settings, a: Attempt, delay: nat) returns (fits: bool)
    ensures fits <==> FitsAgain(settings, a, delay)
  {
    if settings.policy.maxRetries == 0 {
      return true;
    }
    var remaining := settings.policy.RemainingMs(a.checkMs);
    return remaining.Some? && delay < remaining.value;
  }

  /** One attempt of the other client, and the sleep after it. */
  method AnthropicAttempt(report: RetryReport, settings: Settings, env: Environment, ghost waits: seq<nat>)
    returns (goesOn: bool, error: Option<OpeningError>, ghost slept: seq<nat>)
    requires settings.Valid() && report.terminalStop == None
    requires InProgress(settings, env, report.observations, waits) && AreObserved(settings, env, report.observations)
    requires settings.Windowed() ==> env(|report.observations|).startMs < settings.policy.maxElapsedMs
    modifies report
    ensures |report.observations| == |old(report.observations)| + 1 && AreObserved(settings, env, report.observations)
    ensures goesOn ==> report.terminalStop == None && error == Some(ErrorOf(env(|old(report.observations)|).sent))
                       && InProgress(settings, env, report.observations, slept)
                       && Slept(settings, env(|old(report.observations)|), report.observations[|old(report.observations)|].decision, true)
    ensures !goesOn ==> Opened(settings, env, report.observations, report.terminalStop, |report.observations|, slept, error, true)
  {
    var policy, windowed, retries := settings.policy, settings.policy.maxRetries > 0, |report.observations|;
    var a := env(retries);
    ghost var before := report.observations;
    goesOn, slept := false, waits;
    if windowed && a.sendExpires {
      error := OpeningExpired(report, None, None);
      ObservesMore(settings, env, before, report.observations);
    } else if a.sent.Response? && windowed && !IsSuccess(a.sent.status) && (policy.RemainingMs(a.bodyMs).None? || a.bodyExpires) {
      error := OpeningExpired(report, Some(a.sent.status), a.sent.requestId);
      ObservesMore(settings, env, before, report.observations);
    } else if a.sent.Response? && IsSuccess(a.sent.status) {
      Record(report, retries + 1, Some(a.sent.status), None, a.sent.requestId, None);
      error := None;
      ObservesMore(settings, env, before, report.observations);
    } else {
      var decision := DecideOn(report, settings, retries, a, env);
      error := Some(ErrorOf(a.sent));
      if decision.Retry? {
        goesOn, slept := Sleep(report, settings, env, before, waits, decision, a);
        return;
      }
    }
    EndsHere(settings, env, before, report.observations, waits, report.terminalStop, error, true);
  }

  /** The other client checks the window again before and after it sleeps. */
  method AnthropicOpen(settings: Settings, env: Environment) returns (error: Option<OpeningError>, report: RetryReport, sends: nat, ghost waits: seq<nat>)
    requires settings.Valid()
    ensures fresh(report)
    ensures Opened(settings, env, report.observations, report.terminalStop, sends, waits, error, true)
    ensures AreObserved(settings, env, report.observations)
  {
    report := new RetryReport();
    error, sends, waits := None, 0, [];
    while true
      invariant fresh(report) && report.terminalStop == None
      invariant error == if sends == 0 then None else Some(ErrorOf(env(sends - 1).sent))
      invariant sends == |report.observations|
      invariant InProgress(settings, env, report.observations, waits) && AreObserved(settings, env, report.observations)
      invariant sends > 0 ==> Slept(settings, env(sends - 1), report.observations[sends - 1].decision, true)
      decreases settings.MaxRetries() - sends
    {
      if settings.policy.maxRetries > 0 && settings.policy.RemainingMs(env(sends).startMs).None? {
        report.Finish(ElapsedLimit);
        if sends == 0 { EndsUnsent(settings, env, true); } else { EndsBeforeNext(settings, env, report.observations, waits, true); }
        error := if error.Some? then error else Some(BudgetExhausted);
        return;
      }
      sends := sends + 1;
      var goesOn: bool;
      goesOn, error, waits := AnthropicAttempt(report, settings, env, waits);
      if !goesOn {
        return;
      }
    }
  }

  /** Sleep before the next attempt, unless the window is over before or after the sleep. */
  method Sleep(report: RetryReport, settings: Settings, ghost env: Environment, ghost before: seq<Observation>, ghost waits: seq<nat>,
               decision: Decision, a: Attempt) returns (goesOn: bool, ghost slept: seq<nat>)
    requires settings.Valid() && InProgress(settings, env, before, waits) && report.terminalStop == None
    requires |report.observations| == |before| + 1 && report.observations[..|before|] == before
    requires report.observations[|before|].attempt == |before| + 1 && report.observations[|before|].decision == Some(decision)
    requires a == env(|before|) && decision.Retry? && decision == DecisionOn(settings, |before|, a)
    requires settings.Windowed() ==> a.startMs < settings.policy.maxElapsedMs
    modifies report`terminalStop
    ensures slept == if FitsAgain(settings, a, decision.delayMs) then waits + [decision.delayMs] else waits
    ensures goesOn ==> Slept(settings, a, Some(decision), true) && report.terminalStop == None
                       && InProgress(settings, env, report.observations, slept)
    ensures !goesOn ==>
              Opened(settings, env, report.observations, report.terminalStop, |report.observations|, slept, Some(ErrorOf(a.sent)), true)
  {
    RetryKeeps(settings, env, before, report.observations, waits, decision.delayMs);
    slept := waits;
    var fits := CheckedAgain(settings, a, decision.delayMs);
    if !fits {
      report.Finish(ElapsedLimit);
      EndsHere(settings, env, before, report.observations, waits, report.terminalStop, Some(ErrorOf(a.sent)), true);
      return false, slept;
    }
    slept := waits + [decision.delayMs];
    if settings.policy.maxRetries > 0 && settings.policy.RemainingMs(a.wokenMs).None? {
      report.Finish(ElapsedLimit);
      EndsAfterWait(settings, env, report.observations, slept, report.terminalStop, ErrorOf(a.sent), true);
      return false, slept;
    }
    return true, slept;
  }

  /** Record an attempt that outlived the window, and stop. */
  method OpeningExpired(report: RetryReport, status: Option<nat>, requestId: Option<string>) returns (error: Option<OpeningError>)
    requires |report.observations| < 17
    modifies report
    ensures error == Some(if status.Some? then BodyBudget(status.value) else BudgetExhausted)
    ensures report.terminalStop == Some(ElapsedLimit)
    ensures var n := |old(report.observations)|;
            |report.observations| == n + 1 && report.observations[..n] == old(report.observations)
            && report.observations[n].attempt == n + 1 && report.observations[n].decision == Some(Stop(ElapsedLimit))
            && report.observations[n].status == status && report.observations[n].errorCode.None?
            && IsShort(requestId, 256, report.observations[n].requestId)
  {
    Record(report, |report.observations| + 1, status, None, requestId, Some(Stop(ElapsedLimit)));
    report.Finish(ElapsedLimit);
    return Some(if status.Some? then BodyBudget(status.value) else BudgetExhausted);
  }
}
