/**
 What applying an effect does, written out event by event: the first application of an
 effect nothing is saved about, the requests that are refused or cancelled beforehand,
 and the history of an effect that the tool pipeline prepared.
 */
module EffectFirst {
  import opened Wrappers
  import opened LedgerTypes
  import opened Ledger
  import opened ToolEvidence
  import opened EvidenceLaws
  import opened EffectProtocol
  import opened EffectReplay
  import opened EffectAlone

  /** Nothing has been saved about this effect but its preparation or that a decision is awaited. */
  ghost predicate Undecided(log: seq<Event>, key: ExecutionKey, effect: EffectRequest) {
    && (forall slot :: slot != PreparedSlot && slot != AwaitingSlot ==> Free(log, EffectId(key.executionId, effect.effectId, slot)))
    && !IsCancelled(log, key.executionId)
  }

  /** No decision on it is awaited. */
  ghost predicate Unawaited(log: seq<Event>, key: ExecutionKey, effect: EffectRequest) {
    Free(log, EffectId(key.executionId, effect.effectId, AwaitingSlot)) && Free(log, SuspensionId(key.executionId, effect.effectId))
  }

  /** This decision on it is awaited. */
  ghost predicate IsAwaited(log: seq<Event>, key: ExecutionKey, effect: EffectRequest, id: string) {
    && Holds(log, key, EffectId(key.executionId, effect.effectId, AwaitingSlot), EffectAwaitingDecision, AwaitingEffect(effect.effectId, id))
    && Holds(log, key, SuspensionId(key.executionId, effect.effectId), ExecutionSuspended, SuspendedEffect(effect.effectId))
  }

  ghost predicate IsPrepared(log: seq<Event>, key: ExecutionKey, effect: EffectRequest) {
    Holds(log, key, EffectId(key.executionId, effect.effectId, PreparedSlot), EffectPrepared, GenericPrepared(effect))
  }

  ghost predicate IsUnprepared(log: seq<Event>, key: ExecutionKey, effect: EffectRequest) {
    Free(log, EffectId(key.executionId, effect.effectId, PreparedSlot))
  }

  /** Every part of the request that must be there is. */
  predicate Complete(key: ExecutionKey, effect: EffectRequest) {
    && key.executionId != "" && effect.effectId != "" && effect.operationKind != ""
    && effect.inputDigest != "" && effect.policyRevision != ""
  }

  /** The log with one more fact of this effect. */
  function With(log: seq<Event>, key: ExecutionKey, effect: EffectRequest, slot: Slot, kind: Kind, payload: Payload): seq<Event> {
    log + [FactAt(key, EffectId(key.executionId, effect.effectId, slot), |log| + 1, kind, payload)]
  }

  function Prepared(log: seq<Event>, key: ExecutionKey, effect: EffectRequest): seq<Event> {
    With(log, key, effect, PreparedSlot, EffectPrepared, GenericPrepared(effect))
  }

  function Authorized(log: seq<Event>, key: ExecutionKey, effect: EffectRequest, grant: EffectGrant): seq<Event> {
    With(log, key, effect, AuthorizedSlot, EffectAuthorized, Granted(grant))
  }

  function Started(log: seq<Event>, key: ExecutionKey, effect: EffectRequest, grant: EffectGrant): seq<Event> {
    With(Authorized(log, key, effect, grant), key, effect, StartedSlot, EffectStarted, StartedEffect(effect.effectId))
  }

  function Received(log: seq<Event>, key: ExecutionKey, effect: EffectRequest, grant: EffectGrant, outcome: EffectOutcome): seq<Event> {
    With(Started(log, key, effect, grant), key, effect, ReceiptSlot, EffectReceipt, Outcome(outcome.receipt, outcome.detail))
  }

  /** The receipt names this effect, this grant, its executor and its result, and the status of what it carries. */
  predicate Accounts(effect: EffectRequest, grant: EffectGrant, outcome: EffectOutcome) {
    && outcome.receipt.effectId == effect.effectId && outcome.receipt.inputDigest == effect.inputDigest
    && outcome.receipt.authorizationId == grant.authorizationId
    && outcome.receipt.executorId != "" && outcome.receipt.executorRevision != "" && outcome.receipt.resultDigest != ""
    && match outcome.detail
       case Output(_) => outcome.receipt.status == ReceiptCompleted
       case Code(_) => outcome.receipt.status == ReceiptFailed
       case Evidence(_) => outcome.receipt.status == ReceiptUncertain
  }

  /** The reply, the log left and the grants the executor was called with. */
  datatype Ending = Ending(reply: Reply<Disposition>, log: seq<Event>, calls: seq<EffectGrant>)

  /** Under a binding grant the effect is started and executed once, and what it came to is saved twice. */
  function Dispatched(log: seq<Event>, key: ExecutionKey, effect: EffectRequest, grant: EffectGrant, outcome: Reply<EffectOutcome>): Ending {
    match outcome
    case Err(error) => Ending(Err(error), Started(log, key, effect, grant), [grant])
    case Ok(o) =>
      var received := Received(log, key, effect, grant, o);
      var projection := Projection(effect.effectId, o.detail);
      if !Accounts(effect, grant, o) then Ending(Err(Invalid), Started(log, key, effect, grant), [grant])
      else match o.detail
        case Output(output) =>
          Ending(Ok(Completed(output)), With(received, key, effect, CompletedSlot, EffectCompleted, projection), [grant])
        case Code(code) =>
          Ending(Ok(Failed(code)), With(received, key, effect, FailedSlot, EffectFailed, projection), [grant])
        case Evidence(evidence) =>
          Ending(Ok(Uncertain(Said(evidence))), With(received, key, effect, UncertainSlot, EffectUncertain, projection), [grant])
  }

  function Awaited(log: seq<Event>, key: ExecutionKey, effect: EffectRequest, id: string): seq<Event> {
    With(log, key, effect, AwaitingSlot, EffectAwaitingDecision, AwaitingEffect(effect.effectId, id))
  }

  /** What a prepared effect comes to, by admission's decision. */
  ghost function Decided(log: seq<Event>, key: ExecutionKey, effect: EffectRequest, answers: Answers): Ending {
    match answers.decision
    case Err(error) => Ending(Err(error), log, [])
    case Ok(Deny(code)) =>
      Ending(Ok(Denied(code)), With(log, key, effect, DeniedSlot, EffectDenied, DeniedEffect(effect.effectId, code)), [])
    case Ok(AwaitingDecision(id)) =>
      Ending(Ok(Suspended(id)),
             if IsAwaited(log, key, effect, id) then log
             else Awaited(log, key, effect, id)
                  + [FactAt(key, SuspensionId(key.executionId, effect.effectId), |log| + 2, ExecutionSuspended, SuspendedEffect(effect.effectId))],
             [])
    case Ok(Grant(grant)) =>
      if grant.effectId != effect.effectId || grant.inputDigest != effect.inputDigest then Ending(Err(Invalid), log, [])
      else Dispatched(log, key, effect, grant, answers.outcome)
  }

  /** An awaited decision is awaited again, or has not been asked for. */
  ghost predicate MayAwait(log: seq<Event>, key: ExecutionKey, effect: EffectRequest, decision: Reply<AdmissionDecision>) {
    match decision
    case Ok(AwaitingDecision(id)) => Unawaited(log, key, effect) || IsAwaited(log, key, effect, id)
    case _ => true
  }

  // --------------------------------------------------------------------- the steps

  /** The grants a caller alone calls the executor with, in order. */
  ghost function CallsAlone(lib: Library, log: seq<Event>, c: Caller, answers: Answers): seq<EffectGrant>
    decreases Rank(c.pc)
  {
    if Finished(c) then []
    else
      StepDescends(lib, log, c, answers);
      var next := CallerStep(lib, log, c, answers);
      (if c.pc.Execute? then [c.pc.grant] else []) + CallsAlone(lib, next.log, next.caller, answers)
  }

  /** The caller alone ends so. */
  ghost predicate EndsAs(lib: Library, log: seq<Event>, c: Caller, answers: Answers, e: Ending) {
    var end := Alone(lib, log, c, answers);
    end.log == e.log && end.caller.pc == Done(e.reply) && CallsAlone(lib, log, c, answers) == e.calls
  }

  /** A step that does not execute leads to the same end. */
  lemma EndsAfterStep(lib: Library, log: seq<Event>, c: Caller, answers: Answers, next: Stepped, e: Ending)
    requires !Finished(c) && !c.pc.Execute? && CallerStep(lib, log, c, answers) == next
    requires EndsAs(lib, next.log, next.caller, answers, e)
    ensures EndsAs(lib, log, c, answers, e)
  {
    AloneSteps(lib, log, c, answers, next);
  }

  lemma EndsAfterRead(lib: Library, log: seq<Event>, c: Caller, answers: Answers, pc: Pc, e: Ending)
    requires !Finished(c) && !c.pc.Execute? && !c.pc.WriteFact? && !c.pc.WriteStart? && ReadStep(lib, log, c, answers) == pc
    requires EndsAs(lib, log, c.(pc := pc), answers, e)
    ensures EndsAs(lib, log, c, answers, e)
  {
    EndsAfterStep(lib, log, c, answers, Stepped(log, c.(pc := pc)), e);
  }

  lemma EndsAtOnce(lib: Library, log: seq<Event>, c: Caller, answers: Answers, reply: Reply<Disposition>)
    requires c.pc == Done(reply)
    ensures EndsAs(lib, log, c, answers, Ending(reply, log, []))
  {
  }

  /** A fact whose identity is free is appended. */
  lemma EndsAfterFact(lib: Library, log: seq<Event>, c: Caller, answers: Answers, goal: Goal, longer: seq<Event>, e: Ending)
    requires c.pc == LookupFact(goal) && Free(log, GoalFact(c.key, c.effect, goal).eventId)
    requires longer == log + [GoalFact(c.key, c.effect, goal).(cursor := |log| + 1)]
    requires EndsAs(lib, longer, c.(pc := AfterGoal(goal)), answers, e)
    ensures EndsAs(lib, log, c, answers, e)
  {
    var fact := GoalFact(c.key, c.effect, goal);
    FreeIsNotFound(log, fact.eventId);
    FreeIsAppended(log, c.key, fact.eventId, fact.kind, fact.payload);
    EndsAfterStep(lib, log, c.(pc := WriteFact(goal)), answers, Stepped(longer, c.(pc := AfterGoal(goal))), e);
    EndsAfterRead(lib, log, c, answers, WriteFact(goal), e);
  }

  // ------------------------------------------------------------ a first application

  lemma WithStaysFree(log: seq<Event>, key: ExecutionKey, effect: EffectRequest, slot: Slot, kind: Kind, payload: Payload, id: EventId)
    requires Free(log, id) && id != EffectId(key.executionId, effect.effectId, slot)
    ensures Free(With(log, key, effect, slot, kind, payload), id)
  {
  }

  lemma WithStaysUncancelled(log: seq<Event>, key: ExecutionKey, effect: EffectRequest, slot: Slot, kind: Kind, payload: Payload)
    requires !IsCancelled(log, key.executionId) && kind != ExecutionCancelled
    ensures !IsCancelled(With(log, key, effect, slot, kind, payload), key.executionId)
  {
  }

  /** No receipt and no projection is saved, so there is no terminal result. */
  lemma NoTerminalYet(log: seq<Event>, execution: string, effect: EffectRequest)
    requires forall slot: Slot :: slot.ReceiptSlot? || slot.CompletedSlot? || slot.FailedSlot? || slot.UncertainSlot? ==>
               Free(log, EffectId(execution, effect.effectId, slot))
    ensures TerminalOf(log, execution, effect).None?
  {
    var events := EventsOf(log, execution, 0);
    MatchingMembers(log, |log|, Query(Some(execution), None, 0, None, PAGE_LIMIT));
    assert log[..|log|] == log;
    forall i | 0 <= i < |events| ensures Verdict(events[i], execution, effect).None? {
      assert events[i] in events;
      var j :| 0 <= j < |log| && log[j] == events[i];
      assert log[j].eventId != EffectId(execution, effect.effectId, ReceiptSlot);
      assert log[j].eventId != EffectId(execution, effect.effectId, CompletedSlot);
      assert log[j].eventId != EffectId(execution, effect.effectId, FailedSlot);
      assert log[j].eventId != EffectId(execution, effect.effectId, UncertainSlot);
    }
    NoVerdictNoTerminal(events, |events|, execution, effect);
  }

  /** There is no evidence without a preparation. */
  lemma FirstProbes(lib: Library, log: seq<Event>, c: Caller, answers: Answers, e: Ending)
    requires Undecided(log, c.key, c.effect) && c.pc == Probe(AuthorizedSlot)
    requires EndsAs(lib, log, c.(pc := LookupFact(PreparedGoal)), answers, e)
    ensures EndsAs(lib, log, c, answers, e)
  {
    FreeIsNotFound(log, EffectId(c.key.executionId, c.effect.effectId, AuthorizedSlot));
    FreeIsNotFound(log, EffectId(c.key.executionId, c.effect.effectId, StartedSlot));
    FreeIsNotFound(log, EffectId(c.key.executionId, c.effect.effectId, ReceiptSlot));
    EndsAfterRead(lib, log, c.(pc := Probe(ReceiptSlot)), answers, LookupFact(PreparedGoal), e);
    EndsAfterRead(lib, log, c.(pc := Probe(StartedSlot)), answers, Probe(ReceiptSlot), e);
    EndsAfterRead(lib, log, c, answers, Probe(StartedSlot), e);
  }

  /** The execution is not cancelled. */
  lemma ReadsStatus(lib: Library, log: seq<Event>, c: Caller, answers: Answers, e: Ending)
    requires WellFormed(log) && Undecided(log, c.key, c.effect) && Complete(c.key, c.effect) && c.pc == ReadStatus
    requires EndsAs(lib, log, c.(pc := ReadPrepared), answers, e)
    ensures EndsAs(lib, log, c, answers, e)
  {
    StatusIsCancelled(log, c.key.executionId);
    EndsAfterRead(lib, log, c, answers, ReadPrepared, e);
  }

  /** Nothing decided, so nothing started: admission is asked. */
  lemma Continues(lib: Library, log: seq<Event>, c: Caller, answers: Answers, e: Ending)
    requires Undecided(log, c.key, c.effect) && c.pc == ReadTerminal && EndsAs(lib, log, c.(pc := Decide), answers, e)
    ensures EndsAs(lib, log, c, answers, e)
  {
    NoTerminalYet(log, c.key.executionId, c.effect);
    FreeIsNotFound(log, EffectId(c.key.executionId, c.effect.effectId, StartedSlot));
    EndsAfterRead(lib, log, c.(pc := ReadStarted), answers, Decide, e);
    EndsAfterRead(lib, log, c, answers, ReadStarted, e);
  }

  lemma PreparedStaysUndecided(log: seq<Event>, key: ExecutionKey, effect: EffectRequest)
    requires Undecided(log, key, effect)
    ensures Undecided(Prepared(log, key, effect), key, effect)
    ensures Unawaited(log, key, effect) ==> Unawaited(Prepared(log, key, effect), key, effect)
  {
    forall slot | slot != PreparedSlot && slot != AwaitingSlot
      ensures Free(Prepared(log, key, effect), EffectId(key.executionId, effect.effectId, slot))
    {
      WithStaysFree(log, key, effect, PreparedSlot, EffectPrepared, GenericPrepared(effect), EffectId(key.executionId, effect.effectId, slot));
    }
    WithStaysUncancelled(log, key, effect, PreparedSlot, EffectPrepared, GenericPrepared(effect));
  }

  /** An effect that is not prepared is prepared. */
  lemma Prepares(lib: Library, log: seq<Event>, c: Caller, answers: Answers, e: Ending)
    requires Undecided(log, c.key, c.effect) && IsUnprepared(log, c.key, c.effect) && c.pc == ReadPrepared
    requires EndsAs(lib, Prepared(log, c.key, c.effect), c.(pc := ReadTerminal), answers, e)
    ensures EndsAs(lib, log, c, answers, e)
  {
    FreeIsNotFound(log, EffectId(c.key.executionId, c.effect.effectId, PreparedSlot));
    EndsAfterFact(lib, log, c.(pc := LookupFact(PreparedGoal)), answers, PreparedGoal, Prepared(log, c.key, c.effect), e);
    FirstProbes(lib, log, c.(pc := Probe(AuthorizedSlot)), answers, e);
    EndsAfterRead(lib, log, c, answers, Probe(AuthorizedSlot), e);
  }

  /** The same fact is saved already. */
  lemma EndsAfterSaved(lib: Library, log: seq<Event>, c: Caller, answers: Answers, goal: Goal, e: Ending)
    requires WellFormed(log) && c.pc == LookupFact(goal)
    requires var fact := GoalFact(c.key, c.effect, goal); Holds(log, c.key, fact.eventId, fact.kind, fact.payload)
    requires EndsAs(lib, log, c.(pc := AfterGoal(goal)), answers, e)
    ensures EndsAs(lib, log, c, answers, e)
  {
    var fact := GoalFact(c.key, c.effect, goal);
    HoldsIsFound(log, c.key, fact.eventId, fact.kind, fact.payload);
    EndsAfterRead(lib, log, c, answers, AfterGoal(goal), e);
  }

  /** An effect that is prepared is not prepared again. */
  lemma FindsPrepared(lib: Library, log: seq<Event>, c: Caller, answers: Answers, e: Ending)
    requires WellFormed(log) && IsPrepared(log, c.key, c.effect) && c.pc == ReadPrepared
    requires EndsAs(lib, log, c.(pc := ReadTerminal), answers, e)
    ensures EndsAs(lib, log, c, answers, e)
  {
    HoldsIsFound(log, c.key, EffectId(c.key.executionId, c.effect.effectId, PreparedSlot), EffectPrepared, GenericPrepared(c.effect));
    EndsAfterSaved(lib, log, c.(pc := LookupFact(PreparedGoal)), answers, PreparedGoal, e);
    EndsAfterRead(lib, log, c, answers, LookupFact(PreparedGoal), e);
  }

  // ------------------------------------------------------------------ the decision

  lemma IsDenied(lib: Library, log: seq<Event>, c: Caller, answers: Answers, code: string)
    requires Undecided(log, c.key, c.effect) && c.pc == Decide && answers.decision == Ok(Deny(code))
    ensures EndsAs(lib, log, c, answers, Decided(log, c.key, c.effect, answers))
  {
    var e := Decided(log, c.key, c.effect, answers);
    EndsAtOnce(lib, e.log, c.(pc := Done(e.reply)), answers, e.reply);
    EndsAfterFact(lib, log, c.(pc := LookupFact(DeniedGoal(code))), answers, DeniedGoal(code), e.log, e);
    EndsAfterRead(lib, log, c, answers, LookupFact(DeniedGoal(code)), e);
  }

  /** That a decision is awaited suspends the execution. */
  lemma Suspends(lib: Library, log: seq<Event>, c: Caller, answers: Answers, id: string, e: Ending)
    requires Unawaited(log, c.key, c.effect) && c.pc == LookupFact(SuspendedGoal(id))
    requires e == Decided(log, c.key, c.effect, answers)
    requires answers.decision == Ok(AwaitingDecision(id)) && !IsAwaited(log, c.key, c.effect, id)
    ensures EndsAs(lib, Awaited(log, c.key, c.effect, id), c, answers, e)
  {
    WithStaysFree(log, c.key, c.effect, AwaitingSlot, EffectAwaitingDecision, AwaitingEffect(c.effect.effectId, id),
                  SuspensionId(c.key.executionId, c.effect.effectId));
    EndsAtOnce(lib, e.log, c.(pc := Done(e.reply)), answers, e.reply);
    EndsAfterFact(lib, Awaited(log, c.key, c.effect, id), c, answers, SuspendedGoal(id), e.log, e);
  }

  lemma Awaits(lib: Library, log: seq<Event>, c: Caller, answers: Answers, id: string)
    requires c.pc == Decide && answers.decision == Ok(AwaitingDecision(id))
    requires Unawaited(log, c.key, c.effect) && !IsAwaited(log, c.key, c.effect, id)
    ensures EndsAs(lib, log, c, answers, Decided(log, c.key, c.effect, answers))
  {
    var e := Decided(log, c.key, c.effect, answers);
    Suspends(lib, log, c.(pc := LookupFact(SuspendedGoal(id))), answers, id, e);
    EndsAfterFact(lib, log, c.(pc := LookupFact(AwaitingGoal(id))), answers, AwaitingGoal(id), Awaited(log, c.key, c.effect, id), e);
    EndsAfterRead(lib, log, c, answers, LookupFact(AwaitingGoal(id)), e);
  }

  lemma SuspendsAgain(lib: Library, log: seq<Event>, c: Caller, answers: Answers, id: string)
    requires WellFormed(log) && c.pc == LookupFact(SuspendedGoal(id)) && IsAwaited(log, c.key, c.effect, id)
    ensures EndsAs(lib, log, c, answers, Ending(Ok(Suspended(id)), log, []))
  {
    EndsAtOnce(lib, log, c.(pc := Done(Ok(Suspended(id)))), answers, Ok(Suspended(id)));
    EndsAfterSaved(lib, log, c, answers, SuspendedGoal(id), Ending(Ok(Suspended(id)), log, []));
  }

  lemma FindsAwaited(lib: Library, log: seq<Event>, c: Caller, answers: Answers, id: string)
    requires WellFormed(log) && c.pc == LookupFact(AwaitingGoal(id)) && IsAwaited(log, c.key, c.effect, id)
    ensures EndsAs(lib, log, c, answers, Ending(Ok(Suspended(id)), log, []))
  {
    SuspendsAgain(lib, log, c.(pc := LookupFact(SuspendedGoal(id))), answers, id);
    EndsAfterSaved(lib, log, c, answers, AwaitingGoal(id), Ending(Ok(Suspended(id)), log, []));
  }

  lemma AwaitsAgain(lib: Library, log: seq<Event>, c: Caller, answers: Answers, id: string)
    requires WellFormed(log) && c.pc == Decide && answers.decision == Ok(AwaitingDecision(id)) && IsAwaited(log, c.key, c.effect, id)
    ensures EndsAs(lib, log, c, answers, Ending(Ok(Suspended(id)), log, []))
  {
    FindsAwaited(lib, log, c.(pc := LookupFact(AwaitingGoal(id))), answers, id);
    EndsAfterRead(lib, log, c, answers, LookupFact(AwaitingGoal(id)), Ending(Ok(Suspended(id)), log, []));
  }

  lemma StartedStaysFree(log: seq<Event>, key: ExecutionKey, effect: EffectRequest, grant: EffectGrant, id: EventId)
    requires Free(log, id)
    requires id != EffectId(key.executionId, effect.effectId, AuthorizedSlot) && id != EffectId(key.executionId, effect.effectId, StartedSlot)
    ensures Free(Started(log, key, effect, grant), id)
  {
    WithStaysFree(log, key, effect, AuthorizedSlot, EffectAuthorized, Granted(grant), id);
    WithStaysFree(Authorized(log, key, effect, grant), key, effect, StartedSlot, EffectStarted, StartedEffect(effect.effectId), id);
  }

  /** The projection of a receipt that is saved. */
  lemma Projects(lib: Library, log: seq<Event>, c: Caller, answers: Answers, grant: EffectGrant, o: EffectOutcome)
    requires Undecided(log, c.key, c.effect) && c.pc == LookupFact(ProjectionGoal(o.detail)) && Accounts(c.effect, grant, o)
    ensures var e := Dispatched(log, c.key, c.effect, grant, Ok(o));
            EndsAs(lib, Received(log, c.key, c.effect, grant, o), c, answers, Ending(e.reply, e.log, []))
  {
    var started, received := Started(log, c.key, c.effect, grant), Received(log, c.key, c.effect, grant, o);
    var e := Dispatched(log, c.key, c.effect, grant, Ok(o)).(calls := []);
    var last := GoalFact(c.key, c.effect, ProjectionGoal(o.detail)).eventId;
    StartedStaysFree(log, c.key, c.effect, grant, last);
    WithStaysFree(started, c.key, c.effect, ReceiptSlot, EffectReceipt, Outcome(o.receipt, o.detail), last);
    EndsAtOnce(lib, e.log, c.(pc := Done(e.reply)), answers, e.reply);
    EndsAfterFact(lib, received, c, answers, ProjectionGoal(o.detail), e.log, e);
  }

  /** The receipt is saved before the projection. */
  lemma Receives(lib: Library, log: seq<Event>, c: Caller, answers: Answers, grant: EffectGrant, o: EffectOutcome, e: Ending)
    requires Undecided(log, c.key, c.effect) && c.pc == LookupFact(ReceiptGoal(grant, o))
    requires EndsAs(lib, Received(log, c.key, c.effect, grant, o), c.(pc := LookupFact(ProjectionGoal(o.detail))), answers, e)
    ensures EndsAs(lib, Started(log, c.key, c.effect, grant), c, answers, e)
  {
    StartedStaysFree(log, c.key, c.effect, grant, EffectId(c.key.executionId, c.effect.effectId, ReceiptSlot));
    EndsAfterFact(lib, Started(log, c.key, c.effect, grant), c, answers, ReceiptGoal(grant, o), Received(log, c.key, c.effect, grant, o), e);
  }

  /** The one call of the executor. */
  lemma EndsAfterCall(lib: Library, log: seq<Event>, c: Caller, answers: Answers, grant: EffectGrant, pc: Pc, e: Ending)
    requires c.pc == Execute(grant) && AfterExecution(c.effect, grant, answers.outcome) == pc
    requires EndsAs(lib, log, c.(pc := pc, executed := true), answers, e)
    ensures EndsAs(lib, log, c, answers, e.(calls := [grant] + e.calls))
  {
    AloneSteps(lib, log, c, answers, Stepped(log, c.(pc := pc, executed := true)));
  }

  lemma Executes(lib: Library, log: seq<Event>, c: Caller, answers: Answers, grant: EffectGrant)
    requires Undecided(log, c.key, c.effect) && c.pc == Execute(grant)
    ensures EndsAs(lib, Started(log, c.key, c.effect, grant), c, answers, Dispatched(log, c.key, c.effect, grant, answers.outcome))
  {
    var started, d := Started(log, c.key, c.effect, grant), c.(executed := true);
    var e := Dispatched(log, c.key, c.effect, grant, answers.outcome);
    var pc := AfterExecution(c.effect, grant, answers.outcome);
    if answers.outcome.Ok? && Accounts(c.effect, grant, answers.outcome.value) {
      var o := answers.outcome.value;
      Projects(lib, log, d.(pc := LookupFact(ProjectionGoal(o.detail))), answers, grant, o);
      Receives(lib, log, d.(pc := pc), answers, grant, o, Ending(e.reply, e.log, []));
    } else {
      EndsAtOnce(lib, started, d.(pc := pc), answers, e.reply);
    }
    EndsAfterCall(lib, started, c, answers, grant, pc, Ending(e.reply, e.log, []));
  }

  /** The start record is won, since nothing is cancelled and nobody else has started. */
  lemma StartIsWon(log: seq<Event>, c: Caller, grant: EffectGrant)
    requires Undecided(log, c.key, c.effect)
    ensures StartStep(Authorized(log, c.key, c.effect, grant), c, grant)
            == Stepped(Started(log, c.key, c.effect, grant), c.(pc := Execute(grant), entered := true))
  {
    var authorized := Authorized(log, c.key, c.effect, grant);
    var startedId := EffectId(c.key.executionId, c.effect.effectId, StartedSlot);
    WithStaysFree(log, c.key, c.effect, AuthorizedSlot, EffectAuthorized, Granted(grant), startedId);
    WithStaysUncancelled(log, c.key, c.effect, AuthorizedSlot, EffectAuthorized, Granted(grant));
    FreeIsAppended(authorized, c.key, startedId, EffectStarted, StartedEffect(c.effect.effectId));
  }

  lemma Starts(lib: Library, log: seq<Event>, c: Caller, answers: Answers, grant: EffectGrant)
    requires Undecided(log, c.key, c.effect) && c.pc == WriteStart(grant)
    ensures EndsAs(lib, Authorized(log, c.key, c.effect, grant), c, answers, Dispatched(log, c.key, c.effect, grant, answers.outcome))
  {
    var authorized := Authorized(log, c.key, c.effect, grant);
    var next := StartStep(authorized, c, grant);
    StartIsWon(log, c, grant);
    Executes(lib, log, next.caller, answers, grant);
    EndsAfterStep(lib, authorized, c, answers, next, Dispatched(log, c.key, c.effect, grant, answers.outcome));
  }

  lemma Dispatches(lib: Library, log: seq<Event>, c: Caller, answers: Answers, grant: EffectGrant)
    requires Undecided(log, c.key, c.effect) && c.pc == Decide && answers.decision == Ok(Grant(grant))
    requires grant.effectId == c.effect.effectId && grant.inputDigest == c.effect.inputDigest
    ensures EndsAs(lib, log, c, answers, Dispatched(log, c.key, c.effect, grant, answers.outcome))
  {
    var authorized, e := Authorized(log, c.key, c.effect, grant), Dispatched(log, c.key, c.effect, grant, answers.outcome);
    Starts(lib, log, c.(pc := WriteStart(grant)), answers, grant);
    EndsAfterFact(lib, log, c.(pc := LookupFact(AuthorizedGoal(grant))), answers, AuthorizedGoal(grant), authorized, e);
    EndsAfterRead(lib, log, c, answers, LookupFact(AuthorizedGoal(grant)), e);
  }

  lemma RefusedAtOnce(lib: Library, log: seq<Event>, c: Caller, answers: Answers, e: Ending)
    requires c.pc == Decide && AfterDecision(c.effect, answers.decision) == Done(e.reply) && e.log == log && e.calls == []
    ensures EndsAs(lib, log, c, answers, e)
  {
    EndsAtOnce(lib, log, c.(pc := Done(e.reply)), answers, e.reply);
    EndsAfterRead(lib, log, c, answers, Done(e.reply), e);
  }

  lemma EndsDecided(lib: Library, log: seq<Event>, c: Caller, answers: Answers)
    requires WellFormed(log) && Undecided(log, c.key, c.effect) && MayAwait(log, c.key, c.effect, answers.decision) && c.pc == Decide
    ensures EndsAs(lib, log, c, answers, Decided(log, c.key, c.effect, answers))
  {
    var e := Decided(log, c.key, c.effect, answers);
    match answers.decision
    case Ok(Deny(code)) => IsDenied(lib, log, c, answers, code);
    case Ok(AwaitingDecision(id)) =>
      if IsAwaited(log, c.key, c.effect, id) { AwaitsAgain(lib, log, c, answers, id); } else { Awaits(lib, log, c, answers, id); }
    case Ok(Grant(grant)) =>
      if grant.effectId == c.effect.effectId && grant.inputDigest == c.effect.inputDigest { Dispatches(lib, log, c, answers, grant); }
      else { RefusedAtOnce(lib, log, c, answers, e); }
    case Err(error) => RefusedAtOnce(lib, log, c, answers, e);
  }

  // ------------------------------------------------------------------ main results

  /**
   Applying an effect nothing is saved about, with nobody else writing: the reply, every
   event that is written and every call of the executor follow from admission's decision
   and the executor's outcome.
   */
  lemma FirstApplication(lib: Library, log: seq<Event>, key: ExecutionKey, effect: EffectRequest, answers: Answers)
    requires WellFormed(log) && Complete(key, effect)
    requires Undecided(log, key, effect) && Unawaited(log, key, effect) && IsUnprepared(log, key, effect)
    ensures EndsAs(lib, log, Fresh(key, effect), answers, Decided(Prepared(log, key, effect), key, effect, answers))
  {
    var c, prepared := Fresh(key, effect), Prepared(log, key, effect);
    var e := Decided(prepared, key, effect, answers);
    PreparedStaysUndecided(log, key, effect);
    PreparedIsWellFormed(log, key, effect);
    EndsDecided(lib, prepared, c.(pc := Decide), answers);
    Continues(lib, prepared, c.(pc := ReadTerminal), answers, e);
    Prepares(lib, log, c.(pc := ReadPrepared), answers, e);
    ReadsStatus(lib, log, c, answers, e);
  }

  lemma PreparedIsWellFormed(log: seq<Event>, key: ExecutionKey, effect: EffectRequest)
    requires WellFormed(log) && IsUnprepared(log, key, effect)
    ensures WellFormed(Prepared(log, key, effect))
  {
  }

  /** Applying it again before any decision, as after an awaited one, does not prepare it again and asks admission again. */
  lemma NextApplication(lib: Library, log: seq<Event>, key: ExecutionKey, effect: EffectRequest, answers: Answers)
    requires WellFormed(log) && Complete(key, effect) && Undecided(log, key, effect) && IsPrepared(log, key, effect)
    requires MayAwait(log, key, effect, answers.decision)
    ensures EndsAs(lib, log, Fresh(key, effect), answers, Decided(log, key, effect, answers))
  {
    var c, e := Fresh(key, effect), Decided(log, key, effect, answers);
    EndsDecided(lib, log, c.(pc := Decide), answers);
    Continues(lib, log, c.(pc := ReadTerminal), answers, e);
    FindsPrepared(lib, log, c.(pc := ReadPrepared), answers, e);
    ReadsStatus(lib, log, c, answers, e);
  }

  /** What the saved events answer before anything is prepared. */
  ghost predicate IsBarred(log: seq<Event>, key: ExecutionKey, effect: EffectRequest, reply: Reply<Disposition>) {
    if effect.effectId == "" || effect.operationKind == "" || effect.inputDigest == "" || effect.policyRevision == ""
    then reply == Err(Invalid)
    else if key.executionId == "" then reply == Err(LedgerFailure(InvalidQuery))
    else IsCancelled(log, key.executionId) && reply == Ok(Cancelled)
  }

  /** An incomplete request is refused and a cancelled execution reported; nothing is written or executed. */
  lemma BarredApplication(lib: Library, log: seq<Event>, key: ExecutionKey, effect: EffectRequest, answers: Answers, reply: Reply<Disposition>)
    requires WellFormed(log) && IsBarred(log, key, effect, reply)
    ensures EndsAs(lib, log, Fresh(key, effect), answers, Ending(reply, log, []))
  {
    var c := Fresh(key, effect);
    StatusIsCancelled(log, key.executionId);
    EndsAtOnce(lib, log, c.(pc := Done(reply)), answers, reply);
    EndsAfterRead(lib, log, c, answers, Done(reply), Ending(reply, log, []));
  }

  // ------------------------------------------------------- an effect of a prepared tool

  /** A receipt is saved and says this. */
  ghost predicate ReceiptSays(lib: Library, log: seq<Event>, key: ExecutionKey, b: Bound, reply: Reply<Disposition>) {
    || (exists output :: IsToolReceived(lib, log, key, b, Ok(output)) && reply == Ok(Completed(ToolJson(output))))
    || (exists error :: IsToolReceived(lib, log, key, b, Err(error)) && reply == Ok(Failed(error)))
  }

  /** What the saved history of the tool's effect says. */
  ghost predicate HistorySays(lib: Library, log: seq<Event>, key: ExecutionKey, b: Bound, reply: Reply<Disposition>) {
    var started, receipt := EffectId(key.executionId, b.request.effectId, StartedSlot), EffectId(key.executionId, b.request.effectId, ReceiptSlot);
    && (IsToolStarted(log, key, b) || Absent(log, started))
    && if Absent(log, receipt) then reply == Ok(Uncertain(NoCommittedReceipt))
       else if Absent(log, started) then reply == Err(Invalid)
       else ReceiptSays(lib, log, key, b, reply)
  }

  lemma ReceiptIsRead(lib: Library, log: seq<Event>, c: Caller, b: Bound, result: Result<ToolOutput, string>, proof: Option<Proof>)
    requires WellFormed(log) && c.effect.effectId == b.request.effectId
    requires Definitive(lib, b, result) && IsToolReceipt(lib, log, c.key, b, result, proof)
    ensures AfterToolReceipt(lib, c, b, true, FoundSlot(log, c, ReceiptSlot))
            == Ok(match result case Ok(output) => Completed(ToolJson(output)) case Err(error) => Failed(error))
  {
    var payload := ToolReceiptOf(lib, b, result, proof);
    HoldsIsFound(log, c.key, EffectId(c.key.executionId, b.request.effectId, ReceiptSlot), EffectReceipt, payload);
    AcceptedExactlyWhen(lib, b, payload, result);
  }

  lemma SaidIsRead(lib: Library, log: seq<Event>, c: Caller, b: Bound, reply: Reply<Disposition>)
    requires WellFormed(log) && c.effect.effectId == b.request.effectId && ReceiptSays(lib, log, c.key, b, reply)
    ensures AfterToolReceipt(lib, c, b, true, FoundSlot(log, c, ReceiptSlot)) == reply
  {
    if output :| IsToolReceived(lib, log, c.key, b, Ok(output)) && reply == Ok(Completed(ToolJson(output))) {
      var proof :| IsToolReceipt(lib, log, c.key, b, Ok(output), proof);
      ReceiptIsRead(lib, log, c, b, Ok(output), proof);
    } else {
      var error :| IsToolReceived(lib, log, c.key, b, Err(error)) && reply == Ok(Failed(error));
      var proof :| IsToolReceipt(lib, log, c.key, b, Err(error), proof);
      ReceiptIsRead(lib, log, c, b, Err(error), proof);
    }
  }

  lemma StartIsRead(log: seq<Event>, c: Caller, b: Bound)
    requires WellFormed(log) && c.effect.effectId == b.request.effectId
    requires IsToolStarted(log, c.key, b) || Absent(log, EffectId(c.key.executionId, b.request.effectId, StartedSlot))
    ensures AfterToolStarted(c, b, FoundSlot(log, c, StartedSlot)) == RecoverReceipt(b, IsToolStarted(log, c.key, b))
    ensures IsToolStarted(log, c.key, b) <==> !Absent(log, EffectId(c.key.executionId, b.request.effectId, StartedSlot))
  {
    var id := EffectId(c.key.executionId, b.request.effectId, StartedSlot);
    if IsToolStarted(log, c.key, b) {
      HoldsIsFound(log, c.key, id, EffectStarted, ToolStarted(b.request.effectId, b.request.inputDigest, b.scope));
    } else {
      AbsentIsNotFound(log, id);
    }
  }

  /** The execution is not cancelled, and the preparation is found to be a tool's. */
  lemma ToolIsFound(log: seq<Event>, c: Caller, b: Bound) returns (saved: Event)
    requires WellFormed(log) && Complete(c.key, c.effect) && !IsCancelled(log, c.key.executionId)
    requires IsToolBound(b, log, c.key) && c.effect == b.request
    ensures saved.payload == ToolPrepared(b.request, b.prepared, b.scope) && FoundSlot(log, c, PreparedSlot) == Some(saved)
    ensures AfterStatus(c, log) == ReadPrepared && AfterPrepared(c, FoundSlot(log, c, PreparedSlot)) == RecoverIdentity(saved)
  {
    var id := EffectId(c.key.executionId, b.request.effectId, PreparedSlot);
    StatusIsCancelled(log, c.key.executionId);
    HoldsIsFound(log, c.key, id, EffectPrepared, ToolPrepared(b.request, b.prepared, b.scope));
    saved := Find(log, id).value;
  }

  /** Identity, preparation and grant are found to be bound. */
  lemma ToolIsBound(lib: Library, log: seq<Event>, c: Caller, saved: Event, b: Bound)
    requires WellFormed(log) && WellBound(lib, c.key, b) && IsToolBound(b, log, c.key) && c.effect == b.request
    requires saved.payload == ToolPrepared(b.request, b.prepared, b.scope)
    ensures AfterIdentity(c, saved, Find(log, StartedId(c.key.executionId))) == RecoverAuthorized(saved)
    ensures AfterAuthorized(lib, c, saved, FoundSlot(log, c, AuthorizedSlot)) == RecoverStarted(b)
  {
    HoldsIsFound(log, c.key, StartedId(c.key.executionId), ExecutionStarted, Identity(c.key));
    HoldsIsFound(log, c.key, EffectId(c.key.executionId, b.request.effectId, AuthorizedSlot), EffectAuthorized, ToolGranted(b.authorization, b.grant));
    BoundExactlyWhen(lib, c.key, c.effect.effectId, saved.payload, ToolGranted(b.authorization, b.grant), b);
  }

  /** What start and receipt say. */
  lemma HistoryIsRead(lib: Library, log: seq<Event>, c: Caller, b: Bound, reply: Reply<Disposition>)
    requires WellFormed(log) && c.effect == b.request && HistorySays(lib, log, c.key, b, reply)
    ensures var started := IsToolStarted(log, c.key, b);
            && AfterToolStarted(c, b, FoundSlot(log, c, StartedSlot)) == RecoverReceipt(b, started)
            && AfterToolReceipt(lib, c, b, started, FoundSlot(log, c, ReceiptSlot)) == reply
  {
    var receipt := EffectId(c.key.executionId, b.request.effectId, ReceiptSlot);
    StartIsRead(log, c, b);
    if Absent(log, receipt) {
      AbsentIsNotFound(log, receipt);
    } else if IsToolStarted(log, c.key, b) {
      SaidIsRead(lib, log, c, b, reply);
    } else {
      UnstartedIsRefused(lib, log, c, b);
    }
  }

  lemma UnstartedIsRefused(lib: Library, log: seq<Event>, c: Caller, b: Bound)
    requires c.effect == b.request && !Absent(log, EffectId(c.key.executionId, b.request.effectId, ReceiptSlot))
    ensures AfterToolReceipt(lib, c, b, false, FoundSlot(log, c, ReceiptSlot)) == Err(Invalid)
  {
  }

  lemma ReportsReceipt(lib: Library, log: seq<Event>, c: Caller, answers: Answers, b: Bound, started: bool, reply: Reply<Disposition>)
    requires c.pc == RecoverReceipt(b, started) && AfterToolReceipt(lib, c, b, started, FoundSlot(log, c, ReceiptSlot)) == reply
    ensures EndsAs(lib, log, c, answers, Ending(reply, log, []))
  {
    EndsAtOnce(lib, log, c.(pc := Done(reply)), answers, reply);
    EndsAfterRead(lib, log, c, answers, Done(reply), Ending(reply, log, []));
  }

  lemma RecoversGrant(lib: Library, log: seq<Event>, c: Caller, answers: Answers, saved: Event, b: Bound, e: Ending)
    requires c.pc == RecoverAuthorized(saved) && AfterAuthorized(lib, c, saved, FoundSlot(log, c, AuthorizedSlot)) == RecoverStarted(b)
    requires EndsAs(lib, log, c.(pc := RecoverStarted(b)), answers, e)
    ensures EndsAs(lib, log, c, answers, e)
  {
    EndsAfterRead(lib, log, c, answers, RecoverStarted(b), e);
  }

  lemma RecoversIdentity(lib: Library, log: seq<Event>, c: Caller, answers: Answers, saved: Event, e: Ending)
    requires c.pc == RecoverIdentity(saved) && AfterIdentity(c, saved, Find(log, StartedId(c.key.executionId))) == RecoverAuthorized(saved)
    requires EndsAs(lib, log, c.(pc := RecoverAuthorized(saved)), answers, e)
    ensures EndsAs(lib, log, c, answers, e)
  {
    EndsAfterRead(lib, log, c, answers, RecoverAuthorized(saved), e);
  }

  lemma RecoversStart(lib: Library, log: seq<Event>, c: Caller, answers: Answers, b: Bound, started: bool, e: Ending)
    requires c.pc == RecoverStarted(b) && AfterToolStarted(c, b, FoundSlot(log, c, StartedSlot)) == RecoverReceipt(b, started)
    requires EndsAs(lib, log, c.(pc := RecoverReceipt(b, started)), answers, e)
    ensures EndsAs(lib, log, c, answers, e)
  {
    EndsAfterRead(lib, log, c, answers, RecoverReceipt(b, started), e);
  }

  /** From the grant on, the history is reported. */
  lemma BindingPath(lib: Library, log: seq<Event>, c: Caller, answers: Answers, saved: Event, b: Bound, started: bool, reply: Reply<Disposition>)
    requires c.pc == RecoverAuthorized(saved) && AfterAuthorized(lib, c, saved, FoundSlot(log, c, AuthorizedSlot)) == RecoverStarted(b)
    requires var c1 := c.(pc := RecoverStarted(b)); AfterToolStarted(c1, b, FoundSlot(log, c1, StartedSlot)) == RecoverReceipt(b, started)
    requires var c2 := c.(pc := RecoverReceipt(b, started)); AfterToolReceipt(lib, c2, b, started, FoundSlot(log, c2, ReceiptSlot)) == reply
    ensures EndsAs(lib, log, c, answers, Ending(reply, log, []))
  {
    ReportsReceipt(lib, log, c.(pc := RecoverReceipt(b, started)), answers, b, started, reply);
    RecoversStart(lib, log, c.(pc := RecoverStarted(b)), answers, b, started, Ending(reply, log, []));
    RecoversGrant(lib, log, c, answers, saved, b, Ending(reply, log, []));
  }

  lemma HistoryPath(lib: Library, log: seq<Event>, c: Caller, answers: Answers, saved: Event, b: Bound, reply: Reply<Disposition>)
    requires WellFormed(log) && WellBound(lib, c.key, b) && IsToolBound(b, log, c.key) && HistorySays(lib, log, c.key, b, reply)
    requires c.effect == b.request && c.pc == RecoverAuthorized(saved) && saved.payload == ToolPrepared(b.request, b.prepared, b.scope)
    ensures EndsAs(lib, log, c, answers, Ending(reply, log, []))
  {
    var started := IsToolStarted(log, c.key, b);
    HistoryIsRead(lib, log, c.(pc := RecoverStarted(b)), b, reply);
    HistoryIsRead(lib, log, c.(pc := RecoverReceipt(b, started)), b, reply);
    ToolIsBound(lib, log, c, saved, b);
    BindingPath(lib, log, c, answers, saved, b, started, reply);
  }

  /** Up to the grant, the preparation is found. */
  lemma PreparationPath(lib: Library, log: seq<Event>, c: Caller, answers: Answers, saved: Event, e: Ending)
    requires c.pc == ReadStatus && AfterStatus(c, log) == ReadPrepared
    requires var c1 := c.(pc := ReadPrepared); AfterPrepared(c1, FoundSlot(log, c1, PreparedSlot)) == RecoverIdentity(saved)
    requires var c2 := c.(pc := RecoverIdentity(saved)); AfterIdentity(c2, saved, Find(log, StartedId(c2.key.executionId))) == RecoverAuthorized(saved)
    requires EndsAs(lib, log, c.(pc := RecoverAuthorized(saved)), answers, e)
    ensures EndsAs(lib, log, c, answers, e)
  {
    RecoversIdentity(lib, log, c.(pc := RecoverIdentity(saved)), answers, saved, e);
    EndsAfterRead(lib, log, c.(pc := ReadPrepared), answers, RecoverIdentity(saved), e);
    EndsAfterRead(lib, log, c, answers, ReadPrepared, e);
  }

  /**
   Applying the effect of a prepared tool reports its saved history, and neither writes
   nor executes nor asks admission.
   */
  lemma ToolApplication(lib: Library, log: seq<Event>, key: ExecutionKey, b: Bound, answers: Answers, reply: Reply<Disposition>)
    requires WellFormed(log) && Complete(key, b.request) && !IsCancelled(log, key.executionId)
    requires WellBound(lib, key, b) && IsToolBound(b, log, key) && HistorySays(lib, log, key, b, reply)
    ensures EndsAs(lib, log, Fresh(key, b.request), answers, Ending(reply, log, []))
  {
    var c := Fresh(key, b.request);
    var saved := ToolIsFound(log, c, b);
    HistoryPath(lib, log, c.(pc := RecoverAuthorized(saved)), answers, saved, b, reply);
    var again := ToolIsFound(log, c.(pc := ReadPrepared), b);
    ToolIsBound(lib, log, c.(pc := RecoverIdentity(saved)), saved, b);
    PreparationPath(lib, log, c, answers, saved, Ending(reply, log, []));
  }

  // ------------------------------------------------------------------ all applications

  /** The effect is this prepared tool's, and its history says this. */
  ghost predicate ToolSays(lib: Library, log: seq<Event>, key: ExecutionKey, effect: EffectRequest, b: Bound, reply: Reply<Disposition>) {
    && effect == b.request && Complete(key, effect) && !IsCancelled(log, key.executionId)
    && WellBound(lib, key, b) && IsToolBound(b, log, key) && HistorySays(lib, log, key, b, reply)
  }

  /** What an application leaves, by what is saved when it begins. */
  ghost predicate IsAsWritten(lib: Library, log: seq<Event>, key: ExecutionKey, effect: EffectRequest, answers: Answers, e: Ending) {
    && (Complete(key, effect) && Undecided(log, key, effect) && Unawaited(log, key, effect) && IsUnprepared(log, key, effect)
        ==> e == Decided(Prepared(log, key, effect), key, effect, answers))
    && (Complete(key, effect) && Undecided(log, key, effect) && IsPrepared(log, key, effect) && MayAwait(log, key, effect, answers.decision)
        ==> e == Decided(log, key, effect, answers))
    && (forall reply :: IsBarred(log, key, effect, reply) ==> e == Ending(reply, log, []))
    && (forall b, reply :: ToolSays(lib, log, key, effect, b, reply) ==> e == Ending(reply, log, []))
  }

  /** An end is determined by the steps. */
  lemma EndIsUnique(lib: Library, log: seq<Event>, c: Caller, answers: Answers, e: Ending, f: Ending)
    requires EndsAs(lib, log, c, answers, e) && EndsAs(lib, log, c, answers, f)
    ensures e == f
  {
  }

  lemma ApplicationIsAsWritten(lib: Library, log: seq<Event>, key: ExecutionKey, effect: EffectRequest, answers: Answers, e: Ending)
    requires WellFormed(log) && EndsAs(lib, log, Fresh(key, effect), answers, e)
    ensures IsAsWritten(lib, log, key, effect, answers, e)
  {
    var c := Fresh(key, effect);
    if Complete(key, effect) && Undecided(log, key, effect) && Unawaited(log, key, effect) && IsUnprepared(log, key, effect) {
      FirstApplication(lib, log, key, effect, answers);
      EndIsUnique(lib, log, c, answers, e, Decided(Prepared(log, key, effect), key, effect, answers));
    }
    if Complete(key, effect) && Undecided(log, key, effect) && IsPrepared(log, key, effect) && MayAwait(log, key, effect, answers.decision) {
      NextApplication(lib, log, key, effect, answers);
      EndIsUnique(lib, log, c, answers, e, Decided(log, key, effect, answers));
    }
    forall reply | IsBarred(log, key, effect, reply) ensures e == Ending(reply, log, []) {
      BarredApplication(lib, log, key, effect, answers, reply);
      EndIsUnique(lib, log, c, answers, e, Ending(reply, log, []));
    }
    forall b, reply | ToolSays(lib, log, key, effect, b, reply) ensures e == Ending(reply, log, []) {
      ToolApplication(lib, log, key, b, answers, reply);
      EndIsUnique(lib, log, c, answers, e, Ending(reply, log, []));
    }
  }
}
