/**
 `apply_effect` as the program writes it, one statement after another, proved to
 do exactly what a single caller's steps do when nobody else runs.
 */
module ExecutionRuntime {
  import opened Wrappers
  import opened LedgerTypes
  import opened Ledger
  import opened ToolEvidence
  import opened EffectProtocol
  import opened EffectSafety
  import opened EffectReplay
  import opened EffectAlone
  import opened EffectFirst

  class Runtime {
    const ledger: InMemoryLedger
    const lib: Library
    const admission: (ExecutionKey, EffectRequest) -> Reply<AdmissionDecision>
    const executor: (ExecutionKey, EffectRequest, EffectGrant) -> Reply<EffectOutcome>

    constructor (ledger: InMemoryLedger, lib: Library,
                 admission: (ExecutionKey, EffectRequest) -> Reply<AdmissionDecision>,
                 executor: (ExecutionKey, EffectRequest, EffectGrant) -> Reply<EffectOutcome>)
      ensures this.ledger == ledger && this.lib == lib && this.admission == admission && this.executor == executor
    {
      this.ledger, this.lib, this.admission, this.executor := ledger, lib, admission, executor;
    }

    /** What the ports answer to this request. */
    function Answered(key: ExecutionKey, effect: EffectRequest): Answers {
      var decision := admission(key, effect);
      Answers(decision,
              if decision.Ok? && decision.value.Grant? then executor(key, effect, decision.value.grant) else Err(ExecutorFailure))
    }

    /** From here, caller `c` alone ends with this reply on this log. */
    ghost predicate Ends(log: seq<Event>, c: Caller, reply: Reply<Disposition>, final: seq<Event>) {
      var end := Alone(lib, log, c, Answered(c.key, c.effect));
      end.log == final && end.caller.pc == Done(reply)
    }

    method Status(execution: string) returns (r: Reply<Option<EffectProtocol.Status>>)
      requires ledger.Valid()
      modifies ledger
      ensures ledger.Valid() && ledger.events == old(ledger.events)
      ensures r == if execution == "" then Err(LedgerFailure(InvalidQuery)) else Ok(StatusOf(ledger.events, execution))
    {
      var answer, pages := ledger.ExecutionEventsAfter(execution, 0, []);
      AfterNoTurns(old(ledger.events), pages);
      if answer.Err? {
        return Err(LedgerFailure(answer.error));
      }
      var events := answer.value;
      var status: Option<EffectProtocol.Status> := None;
      var i := 0;
      while i < |events|
        invariant 0 <= i <= |events|
        invariant status == StatusUpTo(events, i)
      {
        if status == Some(CancelledStatus) {
          CancelledIsFinal(events, i, |events|);
          break;
        }
        match events[i].kind {
          case ExecutionCancelled => status := Some(CancelledStatus);
          case ExecutionSuspended => status := Some(SuspendedStatus);
          case EffectUncertain => status := Some(UncertainStatus);
          case EffectFailed => status := Some(FailedStatus);
          case EffectCompleted => status := Some(CompletedStatus);
          case ExecutionStarted => status := Some(Running);
          case _ =>
        }
        i := i + 1;
      }
      return Ok(status);
    }

    method TerminalEffect(key: ExecutionKey, effect: EffectRequest) returns (r: Option<Reply<Disposition>>)
      requires ledger.Valid() && key.executionId != ""
      modifies ledger
      ensures ledger.Valid() && ledger.events == old(ledger.events)
      ensures r == TerminalOf(ledger.events, key.executionId, effect)
    {
      var answer, pages := ledger.ExecutionEventsAfter(key.executionId, 0, []);
      AfterNoTurns(old(ledger.events), pages);
      var events := answer.value;
      var i := 0;
      while i < |events|
        invariant 0 <= i <= |events|
        invariant TerminalUpTo(events, i, key.executionId, effect) == None
      {
        var verdict := Verdict(events[i], key.executionId, effect);
        if verdict.Some? {
          FirstIsFinal(events, i + 1, |events|, key.executionId, effect);
          return verdict;
        }
        i := i + 1;
      }
      return None;
    }

    method Lookup(id: EventId) returns (r: Option<Event>)
      requires ledger.Valid() && id != OtherId("")
      ensures r == Find(ledger.events, id)
    {
      var answer := ledger.EventById(id);
      r := answer.value;
    }

    /** Append a fact unless an equal one is already there; `c` is the caller at this point. */
    method AppendOnce(ghost c: Caller, key: ExecutionKey, effect: EffectRequest, goal: Goal) returns (r: Reply<()>)
      requires ledger.Valid()
      requires c.key == key && c.effect == effect && c.pc == LookupFact(goal)
      modifies ledger
      ensures ledger.Valid()
      ensures match r
              case Ok(_) => Alone(lib, old(ledger.events), c, Answered(key, effect))
                            == Alone(lib, ledger.events, c.(pc := AfterGoal(goal)), Answered(key, effect))
              case Err(error) => Ends(old(ledger.events), c, Err(error), ledger.events)
    {
      var fact := GoalFact(key, effect, goal);
      var found := Lookup(fact.eventId);
      AloneSteps(lib, ledger.events, c, Answered(key, effect), Stepped(ledger.events, c.(pc := AfterLookup(c, goal, found))));
      if found.Some? {
        if !SameFact(found.value, fact) {
          return Err(Invalid);
        }
        return Ok(());
      }
      ghost var writing := c.(pc := WriteFact(goal));
      AloneSteps(lib, ledger.events, writing, Answered(key, effect), WriteStep(ledger.events, writing, goal));
      var appended := ledger.Append(fact);
      if appended.Err? {
        return Err(LedgerFailure(appended.error));
      }
      return Ok(());
    }

    /** Observe the history of an effect the tool pipeline prepared. */
    method RecoverPreparedTool(ghost c: Caller, key: ExecutionKey, effect: EffectRequest, saved: Event)
      returns (r: Reply<Disposition>)
      requires ledger.Valid()
      requires c.key == key && c.effect == effect && c.pc == RecoverIdentity(saved)
      ensures Ends(ledger.events, c, r, ledger.events)
    {
      ghost var answers := Answered(key, effect);
      AloneSteps(lib, ledger.events, c, answers,
        Stepped(ledger.events, c.(pc := AfterIdentity(c, saved, Find(ledger.events, StartedId(key.executionId))))));
      var identity := Lookup(StartedId(key.executionId));
      if identity.None? || !IsEvidence(identity.value, key, StartedId(key.executionId), ExecutionStarted)
         || identity.value.payload != Identity(key) {
        return Err(Invalid);
      }
      ghost var c1 := c.(pc := RecoverAuthorized(saved));
      var authorizedId := EffectId(key.executionId, effect.effectId, AuthorizedSlot);
      AloneSteps(lib, ledger.events, c1, answers,
        Stepped(ledger.events, c1.(pc := AfterAuthorized(lib, c1, saved, Find(ledger.events, authorizedId)))));
      var authorized := Lookup(authorizedId);
      if authorized.None? || !IsEvidence(authorized.value, key, authorizedId, EffectAuthorized) {
        return Err(Invalid);
      }
      var bound := FromFacts(lib, key, effect.effectId, saved.payload, authorized.value.payload);
      if bound.None? || bound.value.request != effect {
        return Err(Invalid);
      }
      ghost var c2 := c.(pc := RecoverStarted(bound.value));
      r := RecoverOutcome(c2, key, effect, bound.value);
    }

    method RecoverOutcome(ghost c: Caller, key: ExecutionKey, effect: EffectRequest, bound: Bound)
      returns (r: Reply<Disposition>)
      requires ledger.Valid()
      requires c.key == key && c.effect == effect && c.pc == RecoverStarted(bound)
      ensures Ends(ledger.events, c, r, ledger.events)
    {
      ghost var answers := Answered(key, effect);
      var startedId := EffectId(key.executionId, effect.effectId, StartedSlot);
      AloneSteps(lib, ledger.events, c, answers,
        Stepped(ledger.events, c.(pc := AfterToolStarted(c, bound, Find(ledger.events, startedId)))));
      var started := Lookup(startedId);
      if started.Some? && (!IsEvidence(started.value, key, startedId, EffectStarted)
                           || started.value.payload != bound.StartedPayload()) {
        return Err(Invalid);
      }
      r := RecoverResult(c.(pc := RecoverReceipt(bound, started.Some?)), key, effect, bound, started.Some?);
    }

    /** What the saved receipt says, if there is one. */
    method RecoverResult(ghost c: Caller, key: ExecutionKey, effect: EffectRequest, bound: Bound, started: bool)
      returns (r: Reply<Disposition>)
      requires ledger.Valid()
      requires c.key == key && c.effect == effect && c.pc == RecoverReceipt(bound, started)
      ensures Ends(ledger.events, c, r, ledger.events)
    {
      var receiptId := EffectId(key.executionId, effect.effectId, ReceiptSlot);
      AloneSteps(lib, ledger.events, c, Answered(key, effect),
        Stepped(ledger.events, c.(pc := Done(AfterToolReceipt(lib, c, bound, started, Find(ledger.events, receiptId))))));
      var receipt := Lookup(receiptId);
      if receipt.Some? {
        if !IsEvidence(receipt.value, key, receiptId, EffectReceipt) || !started {
          return Err(Invalid);
        }
        match bound.ValidatedReceipt(lib, receipt.value.payload) {
          case None => return Err(Invalid);
          case Some(Ok(output)) => return Ok(Completed(ToolJson(output)));
          case Some(Err(error)) => return Ok(Failed(error));
        }
      }
      return Ok(Uncertain(NoCommittedReceipt));
    }

    /** Authorize, start and execute under a grant. */
    method Dispatch(ghost c: Caller, key: ExecutionKey, effect: EffectRequest, grant: EffectGrant)
      returns (r: Reply<Disposition>)
      requires ledger.Valid() && key.executionId != ""
      requires c.key == key && c.effect == effect && c.pc == Decide
      requires admission(key, effect) == Ok(Grant(grant))
      modifies ledger
      ensures ledger.Valid()
      ensures Ends(old(ledger.events), c, r, ledger.events)
    {
      ghost var answers := Answered(key, effect);
      AloneSteps(lib, ledger.events, c, answers, Stepped(ledger.events, c.(pc := AfterDecision(effect, answers.decision))));
      if !GrantBinds(grant, effect) {
        return Err(Invalid);
      }
      ghost var c1 := c.(pc := LookupFact(AuthorizedGoal(grant)));
      var authorized := AppendOnce(c1, key, effect, AuthorizedGoal(grant));
      if authorized.Err? {
        return Err(authorized.error);
      }
      r := Start(c.(pc := WriteStart(grant)), key, effect, grant);
    }

    /** Only the caller that appends the start record may dispatch the effect. */
    method Start(ghost c: Caller, key: ExecutionKey, effect: EffectRequest, grant: EffectGrant)
      returns (r: Reply<Disposition>)
      requires ledger.Valid() && key.executionId != ""
      requires c.key == key && c.effect == effect && c.pc == WriteStart(grant)
      requires admission(key, effect) == Ok(Grant(grant))
      modifies ledger
      ensures ledger.Valid()
      ensures Ends(old(ledger.events), c, r, ledger.events)
    {
      ghost var answers, log := Answered(key, effect), ledger.events;
      AloneSteps(lib, log, c, answers, StartStep(log, c, grant));
      var started := ledger.AppendUnlessCancelled(StartFact(key, effect));
      match started {
        case Ok(_) =>
          r := Executed(c.(pc := Execute(grant), entered := true), key, effect, grant);
        case Err(CancelledExecution(_)) =>
          r := Ok(Cancelled);
        case Err(Conflict(_)) =>
          r := Lost(c.(pc := ReadWinner), key, effect);
        case Err(error) =>
          r := Err(LedgerFailure(error));
      }
    }

    /** Another dispatcher started the effect: report its result if there is one. */
    method Lost(ghost c: Caller, key: ExecutionKey, effect: EffectRequest) returns (r: Reply<Disposition>)
      requires ledger.Valid() && key.executionId != ""
      requires c.key == key && c.effect == effect && c.pc == ReadWinner
      modifies ledger
      ensures ledger.Valid() && ledger.events == old(ledger.events)
      ensures Ends(ledger.events, c, r, ledger.events)
    {
      var terminal := TerminalEffect(key, effect);
      r := if terminal.Some? then terminal.value else Ok(Uncertain(AnotherDispatcher));
      AloneSteps(lib, ledger.events, c, Answered(key, effect), Stepped(ledger.events, c.(pc := Done(r))));
    }

    /** Call the executor once and record its receipt and projection. */
    method Executed(ghost c: Caller, key: ExecutionKey, effect: EffectRequest, grant: EffectGrant)
      returns (r: Reply<Disposition>)
      requires ledger.Valid()
      requires c.key == key && c.effect == effect && c.pc == Execute(grant)
      requires admission(key, effect) == Ok(Grant(grant))
      modifies ledger
      ensures ledger.Valid()
      ensures Ends(old(ledger.events), c, r, ledger.events)
    {
      ghost var answers := Answered(key, effect);
      var outcome := executor(key, effect, grant);
      AloneSteps(lib, ledger.events, c, answers, ExecuteStep(ledger.events, c, grant, answers));
      if outcome.Err? {
        return Err(outcome.error);
      }
      if !ReceiptBinds(effect, grant, outcome.value) {
        return Err(Invalid);
      }
      var receipt := ReceiptGoal(grant, outcome.value);
      ghost var c1 := c.(pc := LookupFact(receipt), executed := true);
      var recorded := AppendOnce(c1, key, effect, receipt);
      if recorded.Err? {
        return Err(recorded.error);
      }
      var projection := ProjectionGoal(outcome.value.detail);
      var projected := AppendOnce(c1.(pc := LookupFact(projection)), key, effect, projection);
      if projected.Err? {
        return Err(projected.error);
      }
      return Ok(DetailDisposition(outcome.value.detail));
    }

    /** Record that a decision is awaited, then suspend the execution. */
    method Await(ghost c: Caller, key: ExecutionKey, effect: EffectRequest, id: string) returns (r: Reply<Disposition>)
      requires ledger.Valid()
      requires c.key == key && c.effect == effect && c.pc == LookupFact(AwaitingGoal(id))
      modifies ledger
      ensures ledger.Valid()
      ensures Ends(old(ledger.events), c, r, ledger.events)
    {
      var awaiting := AppendOnce(c, key, effect, AwaitingGoal(id));
      if awaiting.Err? {
        return Err(awaiting.error);
      }
      r := Suspend(c.(pc := LookupFact(SuspendedGoal(id))), key, effect, id);
    }

    /** Record the suspension that an awaited decision causes. */
    method Suspend(ghost c: Caller, key: ExecutionKey, effect: EffectRequest, id: string) returns (r: Reply<Disposition>)
      requires ledger.Valid()
      requires c.key == key && c.effect == effect && c.pc == LookupFact(SuspendedGoal(id))
      modifies ledger
      ensures ledger.Valid()
      ensures Ends(old(ledger.events), c, r, ledger.events)
    {
      var suspended := AppendOnce(c, key, effect, SuspendedGoal(id));
      r := if suspended.Err? then Err(suspended.error) else Ok(Suspended(id));
    }

    /** Ask admission and act on its decision. */
    method Decided(ghost c: Caller, key: ExecutionKey, effect: EffectRequest) returns (r: Reply<Disposition>)
      requires ledger.Valid() && key.executionId != ""
      requires c.key == key && c.effect == effect && c.pc == Decide
      modifies ledger
      ensures ledger.Valid()
      ensures Ends(old(ledger.events), c, r, ledger.events)
    {
      ghost var answers := Answered(key, effect);
      var decision := admission(key, effect);
      AloneSteps(lib, ledger.events, c, answers, Stepped(ledger.events, c.(pc := AfterDecision(effect, decision))));
      match decision {
        case Err(error) =>
          r := Err(error);
        case Ok(Deny(code)) =>
          var denied := AppendOnce(c.(pc := LookupFact(DeniedGoal(code))), key, effect, DeniedGoal(code));
          r := if denied.Err? then Err(denied.error) else Ok(Denied(code));
        case Ok(AwaitingDecision(id)) =>
          r := Await(c.(pc := LookupFact(AwaitingGoal(id))), key, effect, id);
        case Ok(Grant(grant)) =>
          r := Dispatch(c, key, effect, grant);
      }
    }

    /** Prepare the effect generically and carry it to a reply. */
    method ApplyGeneric(ghost c: Caller, key: ExecutionKey, effect: EffectRequest) returns (r: Reply<Disposition>)
      requires ledger.Valid() && key.executionId != ""
      requires c.key == key && c.effect == effect && c.pc == LookupFact(PreparedGoal)
      modifies ledger
      ensures ledger.Valid()
      ensures Ends(old(ledger.events), c, r, ledger.events)
    {
      ghost var answers := Answered(key, effect);
      var prepared := AppendOnce(c, key, effect, PreparedGoal);
      if prepared.Err? {
        return Err(prepared.error);
      }
      r := Continue(c.(pc := ReadTerminal), key, effect);
    }

    /** Report a terminal or started effect, otherwise ask admission. */
    method Continue(ghost c: Caller, key: ExecutionKey, effect: EffectRequest) returns (r: Reply<Disposition>)
      requires ledger.Valid() && key.executionId != ""
      requires c.key == key && c.effect == effect && c.pc == ReadTerminal
      modifies ledger
      ensures ledger.Valid()
      ensures Ends(old(ledger.events), c, r, ledger.events)
    {
      ghost var answers := Answered(key, effect);
      var existing := TerminalEffect(key, effect);
      if existing.Some? {
        AloneSteps(lib, ledger.events, c, answers, Stepped(ledger.events, c.(pc := Done(existing.value))));
        return existing.value;
      }
      ghost var c1 := c.(pc := ReadStarted);
      AloneSteps(lib, ledger.events, c, answers, Stepped(ledger.events, c1));
      var started := Lookup(EffectId(key.executionId, effect.effectId, StartedSlot));
      if started.Some? {
        AloneSteps(lib, ledger.events, c1, answers, Stepped(ledger.events, c.(pc := Done(Ok(Uncertain(ReconciliationRequired))))));
        return Ok(Uncertain(ReconciliationRequired));
      }
      AloneSteps(lib, ledger.events, c1, answers, Stepped(ledger.events, c.(pc := Decide)));
      r := Decided(c.(pc := Decide), key, effect);
    }

    /** No preparation is saved: refuse if later evidence is. */
    method ProbeOrphans(ghost c: Caller, key: ExecutionKey, effect: EffectRequest) returns (orphaned: bool)
      requires ledger.Valid()
      requires c.key == key && c.effect == effect && c.pc == Probe(AuthorizedSlot)
      ensures orphaned ==> Ends(ledger.events, c, Err(Invalid), ledger.events)
      ensures !orphaned ==> Alone(lib, ledger.events, c, Answered(key, effect))
                            == Alone(lib, ledger.events, c.(pc := LookupFact(PreparedGoal)), Answered(key, effect))
    {
      var slots := [AuthorizedSlot, StartedSlot, ReceiptSlot];
      ghost var pc := c.pc;
      var i := 0;
      while i < |slots|
        invariant 0 <= i <= 3 && pc == if i < 3 then Probe(slots[i]) else LookupFact(PreparedGoal)
        invariant Alone(lib, ledger.events, c, Answered(key, effect)) == Alone(lib, ledger.events, c.(pc := pc), Answered(key, effect))
      {
        orphaned := ProbeSlot(c.(pc := pc), key, effect, slots[i]);
        if orphaned {
          return;
        }
        pc := AfterProbe(slots[i]);
        i := i + 1;
      }
      return false;
    }

    /** Look for one slot's evidence. */
    method ProbeSlot(ghost c: Caller, key: ExecutionKey, effect: EffectRequest, slot: Slot) returns (found: bool)
      requires ledger.Valid()
      requires c.key == key && c.effect == effect && c.pc == Probe(slot)
      ensures found ==> Ends(ledger.events, c, Err(Invalid), ledger.events)
      ensures !found ==> Alone(lib, ledger.events, c, Answered(key, effect))
                         == Alone(lib, ledger.events, c.(pc := AfterProbe(slot)), Answered(key, effect))
    {
      var event := Lookup(EffectId(key.executionId, effect.effectId, slot));
      found := event.Some?;
      ghost var next := if found then Done(Err(Invalid)) else AfterProbe(slot);
      AloneSteps(lib, ledger.events, c, Answered(key, effect), Stepped(ledger.events, c.(pc := next)));
    }

    /**
     Apply one effect. The reply and the ledger it leaves are exactly where the
     atomic steps of a fresh caller lead when nobody else writes; and they are, event by
     event, what admission's decision and the executor's outcome come to.
     */
    method ApplyEffect(key: ExecutionKey, effect: EffectRequest) returns (r: Reply<Disposition>)
      requires ledger.Valid()
      modifies ledger
      ensures ledger.Valid()
      ensures Ends(old(ledger.events), Fresh(key, effect), r, ledger.events)
      ensures IsAsWritten(lib, old(ledger.events), key, effect, Answered(key, effect), Ending(r, ledger.events, Calls(old(ledger.events), key, effect)))
    {
      r := ApplySteps(key, effect);
      ApplicationIsAsWritten(lib, old(ledger.events), key, effect, Answered(key, effect),
                             Ending(r, ledger.events, Calls(old(ledger.events), key, effect)));
    }

    /** The calls of the executor an application makes. */
    ghost function Calls(log: seq<Event>, key: ExecutionKey, effect: EffectRequest): seq<EffectGrant> {
      CallsAlone(lib, log, Fresh(key, effect), Answered(key, effect))
    }

    method ApplySteps(key: ExecutionKey, effect: EffectRequest) returns (r: Reply<Disposition>)
      requires ledger.Valid()
      modifies ledger
      ensures ledger.Valid()
      ensures Ends(old(ledger.events), Fresh(key, effect), r, ledger.events)
    {
      ghost var answers := Answered(key, effect);
      ghost var c := Fresh(key, effect);
      AloneSteps(lib, ledger.events, c, answers, Stepped(ledger.events, c.(pc := AfterStatus(c, ledger.events))));
      if !RequestValid(effect) {
        return Err(Invalid);
      }
      var status := Status(key.executionId);
      if status.Err? {
        return Err(status.error);
      }
      if status.value == Some(CancelledStatus) {
        return Ok(Cancelled);
      }
      r := ApplyPrepared(c.(pc := ReadPrepared), key, effect);
    }

    /** Follow the saved preparation, or prepare the effect if there is no evidence of it. */
    method ApplyPrepared(ghost c: Caller, key: ExecutionKey, effect: EffectRequest) returns (r: Reply<Disposition>)
      requires ledger.Valid() && key.executionId != ""
      requires c.key == key && c.effect == effect && c.pc == ReadPrepared
      modifies ledger
      ensures ledger.Valid()
      ensures Ends(old(ledger.events), c, r, ledger.events)
    {
      ghost var answers := Answered(key, effect);
      var preparedId := EffectId(key.executionId, effect.effectId, PreparedSlot);
      var prepared := Lookup(preparedId);
      ghost var c2 := c.(pc := AfterPrepared(c, prepared));
      AloneSteps(lib, ledger.events, c, answers, Stepped(ledger.events, c2));
      if prepared.Some? {
        var saved := prepared.value;
        if !IsEvidence(saved, key, preparedId, EffectPrepared) {
          return Err(Invalid);
        }
        if saved.payload.ToolPrepared? {
          r := RecoverPreparedTool(c2, key, effect, saved);
          return;
        } else if !saved.payload.GenericPrepared? {
          return Err(Invalid);
        }
      } else {
        var orphaned := ProbeOrphans(c2, key, effect);
        if orphaned {
          return Err(Invalid);
        }
      }
      r := ApplyGeneric(c.(pc := LookupFact(PreparedGoal)), key, effect);
    }
  }

  lemma {:induction false} CancelledIsFinal(events: seq<Event>, n: nat, m: nat)
    requires n <= m <= |events| && StatusUpTo(events, n) == Some(CancelledStatus)
    ensures StatusUpTo(events, m) == Some(CancelledStatus)
  {
    if n < m { CancelledIsFinal(events, n, m - 1); }
  }

  lemma {:induction false} FirstIsFinal(events: seq<Event>, n: nat, m: nat, execution: string, effect: EffectRequest)
    requires n <= m <= |events| && TerminalUpTo(events, n, execution, effect).Some?
    ensures TerminalUpTo(events, m, execution, effect) == TerminalUpTo(events, n, execution, effect)
  {
    if n < m { FirstIsFinal(events, n, m - 1, execution, effect); }
  }
}
