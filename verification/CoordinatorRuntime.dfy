/**
 The coordinator as the program writes it: each operation is proved to end as one
 caller's steps do when nobody else moves, and what it then leaves behind.
 */
module CoordinatorRuntime {
  import opened Wrappers
  import opened LedgerTypes
  import opened Ledger
  import opened Coordinator
  import opened CoordinatorProtocol
  import opened CoordinatorSafety
  import opened CoordinatorOutcomes

  /** One caller, numbered zero, over a ledger and the owned executions. */
  function Solo(log: seq<Event>, active: set<string>, c: Caller): State {
    State(log, active, map[0 := c], [])
  }

  ghost predicate IsSolo(s: State) {
    s.callers.Keys == {0}
  }

  ghost predicate Finished(s: State)
    requires IsSolo(s)
  {
    s.callers[0].pc.Done? || s.callers[0].pc.Crashed?
  }

  /** Every step brings the caller nearer its answer. */
  lemma StepDescends(s: State)
    requires IsSolo(s) && !Finished(s)
    ensures IsSolo(Stepped(s, 0)) && Rank(Stepped(s, 0).callers[0].pc) < Rank(s.callers[0].pc)
  {
  }

  /** The caller's steps to the end, with nobody else moving. */
  ghost function Alone(s: State): (t: State)
    requires IsSolo(s)
    ensures IsSolo(t)
    decreases Rank(s.callers[0].pc)
  {
    if Finished(s) then s
    else
      StepDescends(s);
      Alone(Stepped(s, 0))
  }

  /** The caller alone ends with this answer, ledger and owned set. */
  ghost predicate EndsWith(s: State, r: Answer, log: seq<Event>, active: set<string>)
    requires IsSolo(s)
  {
    Alone(s).callers[0].pc == Done(r) && Alone(s).log == log && Alone(s).active == active
  }

  function WithPc(s: State, pc: Pc): State
    requires 0 in s.callers
  {
    s.(callers := s.callers[0 := s.callers[0].(pc := pc)])
  }

  lemma AloneSteps(s: State, t: State)
    requires IsSolo(s) && !Finished(s) && t == Stepped(s, 0) && IsSolo(t)
    ensures Alone(s) == Alone(t)
  {
  }

  /** A read that only moves the caller on. */
  lemma AloneReads(s: State, pc: Pc)
    requires IsSolo(s) && !Finished(s)
    requires !s.callers[0].pc.ReadLog? && !s.callers[0].pc.WriteFact? && !s.callers[0].pc.Admitting? && !s.callers[0].pc.Releasing?
    requires ReadStep(s.log, s.active, s.callers[0]) == s.callers[0].(pc := pc)
    ensures Alone(s) == Alone(WithPc(s, pc))
  {
    AloneSteps(s, WithPc(s, pc));
  }

  /** Where a caller alone is once it knows the state. */
  function Informed(log: seq<Event>, active: set<string>, op: Op, key: ExecutionKey): State {
    Solo(log, active, Caller(op, key, AfterState(op, key, StateOf(log, active, key.executionId)), |log|))
  }

  /** Reading the state takes one step over the ledger, and one over the owned set if it is saved as suspended. */
  lemma AloneIsInformed(log: seq<Event>, active: set<string>, op: Op, key: ExecutionKey)
    requires key.executionId != ""
    ensures Alone(Solo(log, active, Fresh(op, key))) == Alone(Informed(log, active, op, key))
  {
    var s := Solo(log, active, Fresh(op, key));
    var stored := Stored(log, key.executionId);
    var c := Caller(op, key, if stored == Suspended then ReadActive else AfterState(op, key, stored), |log|);
    AloneSteps(s, Solo(log, active, c));
    if stored == Suspended {
      AloneReads(Solo(log, active, c), AfterState(op, key, StateOf(log, active, key.executionId)));
      assert WithPc(Solo(log, active, c), AfterState(op, key, StateOf(log, active, key.executionId))) == Informed(log, active, op, key);
    }
  }

  /** Recording a fact alone: it is there afterwards, or a different one is and the caller fails. */
  ghost predicate RecordsAlone(s: State, fact: Event)
    requires IsSolo(s)
  {
    Alone(s) == if Recordable(s.log, fact) then Alone(WithPc(s.(log := LogWith(s.log, fact)), AfterFact(s.callers[0].op)))
                else WithPc(s, Done(Err(LedgerFailure(Conflict(fact.eventId)))))
  }

  lemma AloneRecords(s: State, fact: Event)
    requires IsSolo(s) && s.callers[0].pc == Lookup(fact)
    ensures RecordsAlone(s, fact)
    ensures !Recordable(s.log, fact) ==> LogWith(s.log, fact) == s.log
  {
    if Find(s.log, fact.eventId).None? {
      AloneMisses(s, fact);
    } else {
      FoundIsTaken(s.log, fact);
      if Saved(s.log, fact) { AloneFinds(s, fact); } else { AloneConflicts(s, fact); }
    }
  }

  /** Nothing with the fact's identity is there: it is written. */
  lemma AloneMisses(s: State, fact: Event)
    requires IsSolo(s) && s.callers[0].pc == Lookup(fact) && Find(s.log, fact.eventId).None?
    ensures RecordsAlone(s, fact)
  {
    var t := WithPc(s, WriteFact(fact));
    AloneReads(s, WriteFact(fact));
    AloneWrites(t, fact);
    assert forall pc :: WithPc(t, pc) == WithPc(s, pc);
    assert forall log, pc :: WithPc(t.(log := log), pc) == WithPc(s.(log := log), pc);
  }

  /** The same fact is there. */
  lemma AloneFinds(s: State, fact: Event)
    requires IsSolo(s) && s.callers[0].pc == Lookup(fact) && Saved(s.log, fact) && LogWith(s.log, fact) == s.log
    ensures RecordsAlone(s, fact)
  {
    AloneReads(s, AfterFact(s.callers[0].op));
    assert s.(log := s.log) == s;
  }

  /** A different fact has its identity. */
  lemma AloneConflicts(s: State, fact: Event)
    requires IsSolo(s) && s.callers[0].pc == Lookup(fact) && Find(s.log, fact.eventId).Some? && !Saved(s.log, fact)
    ensures RecordsAlone(s, fact)
  {
    AloneReads(s, Done(Err(LedgerFailure(Conflict(fact.eventId)))));
  }

  lemma FoundIsTaken(log: seq<Event>, fact: Event)
    requires Find(log, fact.eventId).Some?
    ensures IsTaken(log, fact)
  {
  }

  lemma AloneWrites(s: State, fact: Event)
    requires IsSolo(s) && s.callers[0].pc == WriteFact(fact) && Find(s.log, fact.eventId).None?
    ensures Alone(s) == if !IsTaken(s.log, fact) then Alone(WithPc(s.(log := LogWith(s.log, fact)), AfterFact(s.callers[0].op)))
                        else WithPc(s, Done(Err(LedgerFailure(Conflict(fact.eventId)))))
  {
    if !IsTaken(s.log, fact) {
      AloneSteps(s, WithPc(s.(log := LogWith(s.log, fact)), AfterFact(s.callers[0].op)));
    } else {
      var t := WithPc(s, Recheck(fact));
      AloneSteps(s, t);
      AloneReads(t, Done(Err(LedgerFailure(Conflict(fact.eventId)))));
    }
  }

  /** Taking or giving up the execution is the last step. */
  lemma AloneSettles(s: State)
    requires IsSolo(s) && (s.callers[0].pc.Admitting? || s.callers[0].pc.Releasing?)
    ensures var execution := s.callers[0].key.executionId;
            if s.callers[0].pc.Releasing? then EndsWith(s, Ok(()), s.log, s.active - {execution})
            else if execution in s.active then EndsWith(s, Err(AlreadyActive), s.log, s.active)
            else EndsWith(s, Ok(()), s.log, s.active + {execution})
  {
    AloneSteps(s, Stepped(s, 0));
  }

  /** What recording a fact and then taking the execution answers. */
  function Taking(log: seq<Event>, active: set<string>, fact: Event): Answer {
    if !Recordable(log, fact) then Err(LedgerFailure(Conflict(fact.eventId)))
    else if fact.executionId in active then Err(AlreadyActive)
    else Ok(())
  }

  /** Taking an execution does what is said of the ledger's events. */
  lemma TakingIsExact(log: seq<Event>, active: set<string>, id: EventId, key: ExecutionKey, payload: Payload)
    requires WellFormed(log)
    ensures var fact := FactOf(key, id, ExecutionStarted, payload);
            var r := Taking(log, active, fact);
            IsTakingOf(log, active, id, key, payload, r, LogWith(log, fact), if r.Ok? then active + {key.executionId} else active)
  {
    var fact := FactOf(key, id, ExecutionStarted, payload);
    RecordableExactlyWhen(log, key, id, ExecutionStarted, payload);
    if !Recordable(log, fact) { NotRecordedIsTaken(log, fact); }
    if key.executionId in active { assert active + {key.executionId} == active; }
  }

  lemma ReadmissionIsExact(log: seq<Event>, active: set<string>, recovery: bool, key: ExecutionKey)
    requires WellFormed(log)
    ensures var fact := ReadmissionFact(log, key, recovery);
            var r := Taking(log, active, fact);
            IsReadmission(log, active, recovery, key, r, LogWith(log, fact), if r.Ok? then active + {key.executionId} else active)
  {
    var cursor := LastCursor(log, key.executionId);
    LatestCursorExactlyWhen(log, key.executionId, cursor);
    TakingIsExact(log, active, ReadmissionId(key.executionId, recovery, cursor), key, NoPayload);
  }

  // --------------------------------------------------------------------- the coordinator

  class ExecutionCoordinator {
    const ledger: InMemoryLedger
    var active: set<string>

    constructor (ledger: InMemoryLedger)
      ensures this.ledger == ledger && active == {}
    {
      this.ledger, active := ledger, {};
    }

    method State(execution: string) returns (r: Result<ExecutionState, CoordinatorError>)
      requires ledger.Valid()
      modifies ledger
      ensures ledger.Valid() && ledger.events == old(ledger.events)
      ensures r == if execution == "" then Err(LedgerFailure(InvalidQuery)) else Ok(StateOf(ledger.events, active, execution))
    {
      var answer, pages := ledger.ExecutionEventsAfter(execution, 0, []);
      AfterNoTurns(old(ledger.events), pages);
      if answer.Err? {
        return Err(LedgerFailure(answer.error));
      }
      var events := answer.value;
      var state := New;
      var i := 0;
      while i < |events|
        invariant 0 <= i <= |events|
        invariant state == FoldUpTo(events, i)
      {
        if IsTerminal(state) {
          TerminalIsFinal(events, i, |events|);
          break;
        }
        state := After(state, events[i].kind);
        i := i + 1;
      }
      return Ok(if state == Suspended && execution in active then Running else state);
    }

    method LatestCursor(execution: string) returns (cursor: nat)
      requires ledger.Valid() && execution != ""
      modifies ledger
      ensures ledger.Valid() && ledger.events == old(ledger.events)
      ensures cursor == LastCursor(ledger.events, execution)
    {
      var answer, pages := ledger.ExecutionEventsAfter(execution, 0, []);
      AfterNoTurns(old(ledger.events), pages);
      var events := answer.value;
      return if events == [] then 0 else events[|events| - 1].cursor;
    }

    /**
     Append a fact unless the same one is there already. Others may write between
     the lookup and the append; losing to the same fact is no conflict.
     */
    method AppendOnce(fact: Event, others: seq<Write>) returns (r: Result<(), CoordinatorError>)
      requires ledger.Valid() && fact.eventId != OtherId("")
      modifies ledger
      ensures ledger.Valid()
      ensures var log, grown := old(ledger.events), Grown(old(ledger.events), others);
              && ledger.events == (if Find(log, fact.eventId).Some? then log else LogWith(grown, fact))
              && (r.Ok? <==> if Find(log, fact.eventId).Some? then Saved(log, fact)
                             else !IsTaken(grown, fact)
                                  || (Saved(grown, fact) && Find(grown, fact.eventId).value.idempotencyKey == fact.idempotencyKey))
      ensures r == if r.Ok? then Ok(()) else Err(LedgerFailure(Conflict(fact.eventId)))
    {
      var found := ledger.EventById(fact.eventId);
      if found.value.Some? {
        return if SameFact(found.value.value, fact) then Ok(()) else Err(LedgerFailure(Conflict(fact.eventId)));
      }
      ledger.Interfere(others);
      var appended := ledger.Append(fact);
      if appended.Ok? {
        return Ok(());
      }
      var again := ledger.EventById(fact.eventId);
      if again.value.Some? && SameFact(again.value.value, fact) && again.value.value.idempotencyKey == fact.idempotencyKey {
        return Ok(());
      }
      return Err(LedgerFailure(appended.error));
    }

    /** Record a fact with nobody else writing. */
    method Record(ghost s: State, fact: Event) returns (r: Result<(), CoordinatorError>)
      requires ledger.Valid() && fact.eventId != OtherId("")
      requires IsSolo(s) && s.log == ledger.events && s.callers[0].pc == Lookup(fact)
      modifies ledger
      ensures ledger.Valid() && ledger.events == LogWith(old(ledger.events), fact)
      ensures r == if Recordable(old(ledger.events), fact) then Ok(()) else Err(LedgerFailure(Conflict(fact.eventId)))
      ensures r.Ok? ==> Alone(s) == Alone(WithPc(s.(log := ledger.events), AfterFact(s.callers[0].op)))
      ensures r.Err? ==> EndsWith(s, r, ledger.events, s.active)
    {
      ghost var log := ledger.events;
      AloneRecords(s, fact);
      if Find(log, fact.eventId).Some? { FoundIsTaken(log, fact); }
      if !Recordable(log, fact) { NotRecordedIsTaken(log, fact); }
      assert Grown(log, []) == log;
      r := AppendOnce(fact, []);
    }

    /** Take local ownership of an execution, unless it is taken. */
    method Admit(execution: string) returns (r: Result<(), CoordinatorError>)
      modifies this
      ensures r == if execution in old(active) then Err(AlreadyActive) else Ok(())
      ensures active == old(active) + {execution}
    {
      r := if execution in active then Err(AlreadyActive) else Ok(());
      active := active + {execution};
    }

    method Release(execution: string)
      modifies this
      ensures active == old(active) - {execution}
    {
      active := active - {execution};
    }

    /** Record a fact of an execution, then take it. */
    method Occupy(ghost s: State, fact: Event) returns (r: Result<(), CoordinatorError>)
      requires ledger.Valid() && fact.eventId != OtherId("")
      requires IsSolo(s) && s.log == ledger.events && s.active == active && s.callers[0].pc == Lookup(fact)
      requires s.callers[0].key.executionId == fact.executionId && !s.callers[0].op.CancelOp?
      modifies this, ledger
      ensures ledger.Valid() && ledger.events == LogWith(old(ledger.events), fact)
      ensures r == Taking(old(ledger.events), old(active), fact)
      ensures active == if r.Ok? then old(active) + {fact.executionId} else old(active)
      ensures EndsWith(s, r, ledger.events, active)
    {
      r := Record(s, fact);
      if r.Ok? {
        AloneSettles(WithPc(s.(log := ledger.events), Admitting));
        r := Admit(fact.executionId);
      }
    }

    /** The state before an operation. */
    ghost function Before(key: ExecutionKey): ExecutionState
      reads this, ledger
    {
      StateOf(ledger.events, active, key.executionId)
    }

    /**
     Start a new execution: it is recorded, running and owned. On any other state the
     start is refused and changes nothing. The contract also answers for owned sets no run
     reaches, a new execution that is owned; `StartFailsCleanly` speaks of those it reaches.
     */
    method Start(key: ExecutionKey) returns (r: Result<(), CoordinatorError>)
      requires ledger.Valid() && key.executionId != ""
      modifies this, ledger
      ensures ledger.Valid()
      ensures EndsWith(Solo(old(ledger.events), old(active), Fresh(StartOp, key)), r, ledger.events, active)
      ensures old(Before(key)) == New ==> r == Taking(old(ledger.events), old(active), StartFact(key))
      ensures old(Before(key)) == New ==>
                IsTakingOf(old(ledger.events), old(active), StartedId(key.executionId), key, Identity(key), r, ledger.events, active)
      ensures ledger.events == if old(Before(key)) == New then LogWith(old(ledger.events), StartFact(key)) else old(ledger.events)
      ensures r.Ok? ==> active == old(active) + {key.executionId} && Before(key) == Running
      ensures r.Err? ==> active == old(active)
      ensures r.Err? ==>
                (ledger.events != old(ledger.events)
                 <==> old(Before(key)) == New && key.executionId in old(active) && !IsTaken(old(ledger.events), StartFact(key)))
      ensures old(Before(key)) != New ==>
                r == Err(if old(Before(key)) == Running && key.executionId in old(active) then AlreadyActive
                         else if IsTerminal(old(Before(key))) then Terminal else NotRecoverable)
    {
      ghost var log := ledger.events;
      AloneIsInformed(log, active, StartOp, key);
      ghost var s := Informed(log, active, StartOp, key);
      var answer := State(key.executionId);
      var state := answer.value;
      if state == Running {
        AloneReads(s, Done(Err(if key.executionId in active then AlreadyActive else NotRecoverable)));
        return Err(if key.executionId in active then AlreadyActive else NotRecoverable);
      }
      if state != New {
        return Err(if IsTerminal(state) then Terminal else NotRecoverable);
      }
      NewHasNotStarted(log, key.executionId);
      StartIsAppended(log, key);
      TakingIsExact(log, active, StartedId(key.executionId), key, Identity(key));
      r := Occupy(s, StartFact(key));
    }

    /** Resume a suspended execution: afterwards it is running and owned. */
    method Resume(key: ExecutionKey) returns (r: Result<(), CoordinatorError>)
      requires ledger.Valid() && key.executionId != ""
      modifies this, ledger
      ensures ledger.Valid()
      ensures EndsWith(Solo(old(ledger.events), old(active), Fresh(ResumeOp, key)), r, ledger.events, active)
      ensures old(Before(key)) == Suspended ==> r == Taking(old(ledger.events), old(active), ReadmissionFact(old(ledger.events), key, false))
      ensures old(Before(key)) == Suspended ==> IsReadmission(old(ledger.events), old(active), false, key, r, ledger.events, active)
      ensures r.Ok? ==>
                && key.executionId !in old(active) && active == old(active) + {key.executionId} && Before(key) == Running
                && ledger.events == LogWith(old(ledger.events), ReadmissionFact(old(ledger.events), key, false))
      ensures r.Err? ==> ledger.events == old(ledger.events) && active == old(active)
      ensures old(Before(key)) != Suspended ==> r == Err(if IsTerminal(old(Before(key))) then Terminal else NotSuspended)
    {
      AloneIsInformed(ledger.events, active, ResumeOp, key);
      ghost var s := Informed(ledger.events, active, ResumeOp, key);
      var answer := State(key.executionId);
      if answer.value != Suspended {
        return Err(if IsTerminal(answer.value) then Terminal else NotSuspended);
      }
      ReadmissionIsExact(ledger.events, active, false, key);
      r := Readmit(s, key, false);
    }

    /**
     Recover an execution that is running or suspended: it is running and owned after a
     success. A call that fails leaves an event behind exactly when the execution is
     owned, running or suspended, and the readmission could be appended.
     */
    method Recover(key: ExecutionKey) returns (r: Result<(), CoordinatorError>)
      requires ledger.Valid() && key.executionId != ""
      modifies this, ledger
      ensures ledger.Valid()
      ensures EndsWith(Solo(old(ledger.events), old(active), Fresh(RecoverOp, key)), r, ledger.events, active)
      ensures old(Before(key)) == Running || old(Before(key)) == Suspended ==>
                && r == Taking(old(ledger.events), old(active), ReadmissionFact(old(ledger.events), key, true))
                && IsReadmission(old(ledger.events), old(active), true, key, r, ledger.events, active)
      ensures ledger.events == if old(Before(key)) == Running || old(Before(key)) == Suspended
                               then LogWith(old(ledger.events), ReadmissionFact(old(ledger.events), key, true))
                               else old(ledger.events)
      ensures r.Ok? ==> active == old(active) + {key.executionId} && Before(key) == Running
      ensures r.Err? ==> active == old(active)
      ensures r.Err? ==>
                (ledger.events != old(ledger.events)
                 <==> && (old(Before(key)) == Running || old(Before(key)) == Suspended)
                      && key.executionId in old(active)
                      && !IsTaken(old(ledger.events), ReadmissionFact(old(ledger.events), key, true)))
      ensures old(Before(key)) != Running && old(Before(key)) != Suspended ==> r == Err(NotRecoverable)
    {
      AloneIsInformed(ledger.events, active, RecoverOp, key);
      ghost var s := Informed(ledger.events, active, RecoverOp, key);
      var answer := State(key.executionId);
      if answer.value != Running && answer.value != Suspended {
        return Err(NotRecoverable);
      }
      ReadmissionIsExact(ledger.events, active, true, key);
      r := Readmit(s, key, true);
    }

    /**
     Take an execution that is saved as suspended, or for a recovery as running, without
     recording anything. Whatever the answer, the ledger stays.
     */
    method AdmitSaved(key: ExecutionKey, recovery: bool) returns (r: Result<(), CoordinatorError>)
      requires ledger.Valid() && key.executionId != ""
      modifies this, ledger
      ensures ledger.Valid() && ledger.events == old(ledger.events)
      ensures EndsWith(Solo(old(ledger.events), old(active), Fresh(AdmitOp(recovery), key)), r, ledger.events, active)
      ensures r.Ok? <==> key.executionId !in old(active)
                         && (old(Before(key)) == Suspended || (recovery && old(Before(key)) == Running))
      ensures r.Ok? ==> active == old(active) + {key.executionId}
                        && Before(key) == if old(Before(key)) == Suspended then Running else old(Before(key))
      ensures r.Err? ==> active == old(active)
      ensures r.Err? ==> r.error == if recovery then (if old(Before(key)) == Running then AlreadyActive else NotRecoverable)
                                    else NotSuspended
    {
      AloneIsInformed(ledger.events, active, AdmitOp(recovery), key);
      ghost var s := Informed(ledger.events, active, AdmitOp(recovery), key);
      var answer := State(key.executionId);
      if answer.value != Suspended && !(recovery && answer.value == Running) {
        return Err(if recovery then NotRecoverable else NotSuspended);
      }
      AloneSettles(s);
      r := Admit(key.executionId);
    }

    /** Record that a running or suspended execution goes on, at its latest cursor, and take it. */
    method Readmit(ghost s: State, key: ExecutionKey, recovery: bool) returns (r: Result<(), CoordinatorError>)
      requires ledger.Valid() && key.executionId != ""
      requires Stored(ledger.events, key.executionId) == Running || Stored(ledger.events, key.executionId) == Suspended
      requires IsSolo(s) && s.log == ledger.events && s.active == active && s.callers[0].pc.ReadCursor?
      requires s.callers[0].key == key && s.callers[0].op == (if recovery then RecoverOp else ResumeOp)
      modifies this, ledger
      ensures ledger.Valid() && EndsWith(s, r, ledger.events, active)
      ensures var fact := ReadmissionFact(old(ledger.events), key, recovery);
              && ledger.events == LogWith(old(ledger.events), fact)
              && r == Taking(old(ledger.events), old(active), fact)
              && (!Recordable(old(ledger.events), fact) ==> ledger.events == old(ledger.events))
      ensures r.Ok? ==> active == old(active) + {key.executionId} && Before(key) == Running
      ensures r.Err? ==> active == old(active)
    {
      ghost var log := ledger.events;
      var cursor := LatestCursor(key.executionId);
      var fact := FactOf(key, ReadmissionId(key.executionId, recovery, cursor), ExecutionStarted, NoPayload);
      AloneReads(s, Lookup(fact));
      WrittenRuns(log, fact, key.executionId);
      if !Recordable(log, fact) { NotRecordedIsTaken(log, fact); }
      r := Occupy(WithPc(s, Lookup(fact)), fact);
    }

    /** Cancel an execution that has not ended: it is cancelled for good, and not owned. */
    method Cancel(key: ExecutionKey) returns (r: Result<(), CoordinatorError>)
      requires ledger.Valid() && key.executionId != ""
      modifies this, ledger
      ensures ledger.Valid()
      ensures EndsWith(Solo(old(ledger.events), old(active), Fresh(CancelOp, key)), r, ledger.events, active)
      ensures r == if IsTerminal(old(Before(key))) || Recordable(old(ledger.events), CancelFact(key)) then Ok(())
                   else Err(LedgerFailure(Conflict(CancelledId(key.executionId))))
      ensures r.Ok? ==> IsTerminal(Before(key))
      ensures if IsTerminal(old(Before(key))) then r.Ok? && ledger.events == old(ledger.events) && active == old(active)
              else if r.Ok? then Before(key) == Cancelled && active == old(active) - {key.executionId}
                                 && ledger.events == LogWith(old(ledger.events), CancelFact(key))
              else ledger.events == old(ledger.events) && active == old(active)
      ensures !IsTerminal(old(Before(key))) ==> IsCancelling(old(ledger.events), old(active), key, r, ledger.events, active)
    {
      ghost var log := ledger.events;
      RecordableExactlyWhen(log, key, CancelledId(key.executionId), ExecutionCancelled, NoPayload);
      AloneIsInformed(log, active, CancelOp, key);
      ghost var s := Informed(log, active, CancelOp, key);
      var answer := State(key.executionId);
      if IsTerminal(answer.value) {
        return Ok(());
      }
      OpenIsNotCancelled(log, key.executionId);
      CancelIsAppended(log, key);
      r := Record(s, CancelFact(key));
      if r.Ok? {
        AloneSettles(WithPc(s.(log := ledger.events), Releasing));
        Release(key.executionId);
      } else {
        NotRecordedIsTaken(log, CancelFact(key));
      }
    }
  }

  lemma NotRecordedIsTaken(log: seq<Event>, fact: Event)
    requires !Recordable(log, fact)
    ensures IsTaken(log, fact) && LogWith(log, fact) == log
  {
    if Find(log, fact.eventId).Some? { FoundIsTaken(log, fact); }
  }

  /** A started fact, written or there already, leaves a running or suspended execution so. */
  lemma WrittenRuns(log: seq<Event>, fact: Event, execution: string)
    requires fact.executionId == execution && fact.kind == ExecutionStarted && !IsTerminal(Stored(log, execution))
    ensures var longer := LogWith(log, fact);
            if longer == log then IsTaken(log, fact) else Stored(longer, execution) == Running
  {
    if !IsTaken(log, fact) { AppendedMoves(log, fact.(cursor := |log| + 1), execution); }
  }

  /** A new execution's start cannot be there already. */
  lemma StartIsAppended(log: seq<Event>, key: ExecutionKey)
    requires Stored(log, key.executionId) == New && !Happened(log, key.executionId, ExecutionStarted)
    ensures Recordable(log, StartFact(key)) <==> !IsTaken(log, StartFact(key))
    ensures !IsTaken(log, StartFact(key)) ==> Stored(LogWith(log, StartFact(key)), key.executionId) == Running
  {
    SavedIsHappened(log, StartFact(key));
    if !IsTaken(log, StartFact(key)) { AppendedMoves(log, StartFact(key).(cursor := |log| + 1), key.executionId); }
  }

  lemma CancelIsAppended(log: seq<Event>, key: ExecutionKey)
    requires !IsTerminal(Stored(log, key.executionId)) && !Happened(log, key.executionId, ExecutionCancelled)
    ensures Recordable(log, CancelFact(key)) <==> !IsTaken(log, CancelFact(key))
    ensures !IsTaken(log, CancelFact(key)) ==> Stored(LogWith(log, CancelFact(key)), key.executionId) == Cancelled
  {
    SavedIsHappened(log, CancelFact(key));
    if !IsTaken(log, CancelFact(key)) { AppendedMoves(log, CancelFact(key).(cursor := |log| + 1), key.executionId); }
  }

  lemma SavedIsHappened(log: seq<Event>, fact: Event)
    ensures Saved(log, fact) ==> Happened(log, fact.executionId, fact.kind)
    ensures Find(log, fact.eventId).Some? ==> IsTaken(log, fact)
  {
    if Find(log, fact.eventId).Some? {
      var i :| 0 <= i < |log| && log[i] == Find(log, fact.eventId).value && log[i].eventId == fact.eventId;
      assert log[i] in log;
    }
  }

  // --------------------------------------------------------------- a start that fails

  /** The caller alone ends with its answer, or with a failure and everything else as it was. */
  ghost predicate FailsCleanly(s: State)
    requires IsSolo(s)
  {
    var t := Alone(s);
    t.callers[0].pc.Done? && (t.callers[0].pc.result.Err? ==> t.log == s.log && t.active == s.active)
  }

  /** Recording a fact and taking an execution that is not owned fails only before anything is written. */
  lemma RecordingFailsCleanly(s: State, fact: Event)
    requires IsSolo(s) && s.callers[0].pc == Lookup(fact) && !s.callers[0].op.CancelOp?
    requires s.callers[0].key.executionId !in s.active
    ensures FailsCleanly(s)
  {
    AloneRecords(s, fact);
    if Recordable(s.log, fact) { AloneSettles(WithPc(s.(log := LogWith(s.log, fact)), Admitting)); }
  }

  /** Alone from any state a run reaches, a start that fails changes nothing. */
  lemma StartFailsCleanly(actions: seq<Action>, s: State, key: ExecutionKey)
    requires s == Run(INITIAL, actions) && key.executionId != ""
    ensures FailsCleanly(Solo(s.log, s.active, Fresh(StartOp, key)))
  {
    var t := Informed(s.log, s.active, StartOp, key);
    AloneIsInformed(s.log, s.active, StartOp, key);
    if key.executionId in s.active { OwnedHasBegun(actions, s, key.executionId); }
    match t.callers[0].pc
    case Lookup(fact) => RecordingFailsCleanly(t, fact);
    case ReadOwner => AloneReads(t, Done(Err(if key.executionId in s.active then AlreadyActive else NotRecoverable)));
    case _ =>
  }

  // ------------------------------------------------------------------- an example

  /** A recovery of an execution that is owned fails, and leaves one event more. */
  method OwnedRecoveryLeavesEvent(key: ExecutionKey) returns (r: Result<(), CoordinatorError>, before: seq<Event>, after: seq<Event>)
    requires key.executionId != ""
    ensures r == Err(AlreadyActive)
    ensures before == [StartFact(key).(cursor := 1)]
    ensures after == before + [FactOf(key, ReadmissionId(key.executionId, true, 1), ExecutionStarted, NoPayload).(cursor := 2)]
  {
    var ledger, coordinator := Started(key);
    before := ledger.events;
    StartedAlone(key);
    r := coordinator.Recover(key);
    after := ledger.events;
  }

  /** A coordinator that has started one execution on an empty ledger. */
  method Started(key: ExecutionKey) returns (ledger: InMemoryLedger, coordinator: ExecutionCoordinator)
    requires key.executionId != ""
    ensures fresh(ledger) && fresh(coordinator) && coordinator.ledger == ledger && ledger.Valid()
    ensures ledger.events == [StartFact(key).(cursor := 1)] && coordinator.active == {key.executionId}
  {
    ledger := new InMemoryLedger();
    coordinator := new ExecutionCoordinator(ledger);
    NothingStored(key.executionId);
    FirstStart(key);
    var started := coordinator.Start(key);
  }

  lemma NothingStored(execution: string)
    ensures Stored([], execution) == New
  {
    assert EventsOf([], execution, 0) == [];
  }

  lemma FirstStart(key: ExecutionKey)
    ensures Recordable([], StartFact(key)) && LogWith([], StartFact(key)) == [StartFact(key).(cursor := 1)]
  {
    assert [] + [StartFact(key).(cursor := 1)] == [StartFact(key).(cursor := 1)];
  }

  lemma StartedAlone(key: ExecutionKey)
    ensures var log := [StartFact(key).(cursor := 1)];
            && Stored(log, key.executionId) == Running && LastCursor(log, key.executionId) == 1
            && !IsTaken(log, ReadmissionFact(log, key, true))
  {
    var start := StartFact(key).(cursor := 1);
    NothingStored(key.executionId);
    assert EventsOf([], key.executionId, 0) == [];
    EventsOfAppended([], start, key.executionId);
    AppendedMoves([], start, key.executionId);
    assert [] + [start] == [start];
  }
}
