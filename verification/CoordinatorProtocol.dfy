/**
 Start, resume, recovery, direct admission, cancellation and release of executions in
 one process: the atomic steps of their callers over the shared ledger and the set of
 owned executions. Other processes write to the same ledger; a restart loses callers
 and ownership.
 */
module CoordinatorProtocol {
  import opened Wrappers
  import opened LedgerTypes
  import opened Ledger
  import opened Coordinator

  /**
   What a caller wants. `AdmitOp` is the service's own way to go on from a saved
   checkpoint: it reads the state and takes the execution without recording anything,
   a suspended one, or with `recovery` a running one too.
   */
  datatype Op = StartOp | ResumeOp | RecoverOp | AdmitOp(recovery: bool) | CancelOp

  type Answer = Result<(), CoordinatorError>

  datatype Pc =
    | ReadLog
    | ReadActive              // saved as suspended: is the execution owned here?
    | ReadOwner               // a start found it running: is it owned here?
    | ReadCursor
    | Lookup(fact: Event)     // append_once: look, write, and look again on a conflict
    | WriteFact(fact: Event)
    | Recheck(fact: Event)
    | Admitting
    | Releasing
    | Done(result: Answer)
    | Crashed

  /** `seen` is the length of the ledger the caller read its state from. */
  datatype Caller = Caller(op: Op, key: ExecutionKey, pc: Pc, seen: nat)

  function Fresh(op: Op, key: ExecutionKey): Caller {
    Caller(op, key, ReadLog, 0)
  }

  function StartFact(key: ExecutionKey): Event {
    FactOf(key, StartedId(key.executionId), ExecutionStarted, Identity(key))
  }

  function CancelFact(key: ExecutionKey): Event {
    FactOf(key, CancelledId(key.executionId), ExecutionCancelled, NoPayload)
  }

  /** What a state leads to. */
  function AfterState(op: Op, key: ExecutionKey, state: ExecutionState): Pc {
    match op
    case StartOp =>
      if state == New then Lookup(StartFact(key))
      else if state == Running then ReadOwner
      else Done(Err(if IsTerminal(state) then Terminal else NotRecoverable))
    case ResumeOp => if state == Suspended then ReadCursor else Done(Err(if IsTerminal(state) then Terminal else NotSuspended))
    case RecoverOp => if state == Running || state == Suspended then ReadCursor else Done(Err(NotRecoverable))
    case AdmitOp(recovery) =>
      if state == Suspended || (recovery && state == Running) then Admitting
      else Done(Err(if recovery then NotRecoverable else NotSuspended))
    case CancelOp => if IsTerminal(state) then Done(Ok(())) else Lookup(CancelFact(key))
  }

  function AfterFact(op: Op): Pc {
    if op.CancelOp? then Releasing else Admitting
  }

  /** The saved event with this identity states the same fact. */
  predicate Saved(log: seq<Event>, fact: Event) {
    Find(log, fact.eventId).Some? && SameFact(Find(log, fact.eventId).value, fact)
  }

  function AfterLookup(log: seq<Event>, op: Op, fact: Event): Pc {
    if Find(log, fact.eventId).None? then WriteFact(fact)
    else if Saved(log, fact) then AfterFact(op)
    else Done(Err(LedgerFailure(Conflict(fact.eventId))))
  }

  function AfterRecheck(log: seq<Event>, op: Op, fact: Event): Pc {
    if Saved(log, fact) && Find(log, fact.eventId).value.idempotencyKey == fact.idempotencyKey then AfterFact(op)
    else Done(Err(LedgerFailure(Conflict(fact.eventId))))
  }

  /** Where a step that changes nothing but its caller takes it. */
  function ReadStep(log: seq<Event>, active: set<string>, c: Caller): Caller {
    var execution := c.key.executionId;
    match c.pc
    case ReadLog =>
      if execution == "" then c.(pc := Done(Err(LedgerFailure(InvalidQuery))))
      else
        var stored := Stored(log, execution);
        c.(seen := |log|, pc := if stored == Suspended then ReadActive else AfterState(c.op, c.key, stored))
    case ReadActive => c.(pc := AfterState(c.op, c.key, if execution in active then Running else Suspended))
    case ReadOwner => c.(pc := Done(Err(if execution in active then AlreadyActive else NotRecoverable)))
    case ReadCursor => c.(pc := Lookup(ReadmissionFact(log, c.key, c.op.RecoverOp?)))
    case Lookup(fact) => c.(pc := AfterLookup(log, c.op, fact))
    case Recheck(fact) => c.(pc := AfterRecheck(log, c.op, fact))
    case _ => c
  }

  function WriteStep(log: seq<Event>, c: Caller, fact: Event): (seq<Event>, Caller) {
    match Appended(log, fact, false)
    case Ok(longer) => (longer, c.(pc := AfterFact(c.op)))
    case Err(Conflict(_)) => (log, c.(pc := Recheck(fact)))
    case Err(error) => (log, c.(pc := Done(Err(LedgerFailure(error)))))
  }

  // ------------------------------------------------------------------ all callers

  /** The changes of the owned set, in order: a caller takes an execution, one is released, or all are lost. */
  datatype Ownership = Admission(execution: string, caller: nat) | Released(execution: string) | Restarted

  datatype State = State(log: seq<Event>, active: set<string>, callers: map<nat, Caller>, trace: seq<Ownership>)

  const INITIAL := State([], {}, map[], [])

  datatype Action =
    | Spawn(id: nat, op: Op, key: ExecutionKey)
    | Step(id: nat)
    | Crash(id: nat)
    | Restart
    | Release(execution: string)
    | Foreign(event: Event, checkCancel: bool)

  /** Others write under keys that are identities, and name only cursors there are when they readmit. */
  predicate ForeignAllowed(log: seq<Event>, event: Event) {
    event.idempotencyKey == event.eventId && (event.eventId.ReadmissionId? ==> event.eventId.cursor <= |log|)
  }

  function Stopped(c: Caller): Caller {
    if c.pc.Done? then c else c.(pc := Crashed)
  }

  /** One step of one caller. */
  function Stepped(s: State, id: nat): State
    requires id in s.callers
  {
    var c := s.callers[id];
    var execution := c.key.executionId;
    match c.pc
    case WriteFact(fact) =>
      var r := WriteStep(s.log, c, fact);
      s.(log := r.0, callers := s.callers[id := r.1])
    case Admitting =>
      if execution in s.active then s.(callers := s.callers[id := c.(pc := Done(Err(AlreadyActive)))])
      else s.(active := s.active + {execution}, callers := s.callers[id := c.(pc := Done(Ok(())))],
              trace := s.trace + [Admission(execution, id)])
    case Releasing =>
      s.(active := s.active - {execution}, callers := s.callers[id := c.(pc := Done(Ok(())))],
         trace := s.trace + [Released(execution)])
    case _ => s.(callers := s.callers[id := ReadStep(s.log, s.active, c)])
  }

  function Next(s: State, action: Action): State {
    match action
    case Spawn(id, op, key) => if id in s.callers then s else s.(callers := s.callers[id := Fresh(op, key)])
    case Step(id) => if id in s.callers then Stepped(s, id) else s
    case Crash(id) => if id in s.callers then s.(callers := s.callers[id := Stopped(s.callers[id])]) else s
    case Restart =>
      State(s.log, {}, map id | id in s.callers :: Stopped(s.callers[id]), s.trace + [Restarted])
    case Release(execution) => s.(active := s.active - {execution}, trace := s.trace + [Released(execution)])
    case Foreign(event, checkCancel) =>
      var r := Appended(s.log, event, checkCancel);
      if ForeignAllowed(s.log, event) && r.Ok? then s.(log := r.value) else s
  }

  function RunUpTo(s: State, actions: seq<Action>, n: nat): State
    requires n <= |actions|
  {
    if n == 0 then s else Next(RunUpTo(s, actions, n - 1), actions[n - 1])
  }

  function Run(s: State, actions: seq<Action>): State {
    RunUpTo(s, actions, |actions|)
  }

  /** How far a caller is from its answer. */
  function Rank(pc: Pc): nat {
    match pc
    case ReadLog => 9
    case ReadActive => 8
    case ReadOwner => 7
    case ReadCursor => 6
    case Lookup(_) => 5
    case WriteFact(_) => 4
    case Recheck(_) => 3
    case Admitting => 1
    case Releasing => 1
    case Done(_) => 0
    case Crashed => 0
  }
}
