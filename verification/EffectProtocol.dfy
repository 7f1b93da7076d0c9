/**
 Effect execution over the ledger: the atomic steps of `apply_effect`.

 A caller runs one `apply_effect`. Each step makes at most one ledger operation
 or one call to the admission or executor port, so a run of many callers is any
 interleaving of their steps, and a crash may fall between any two of them.
 */
module EffectProtocol {
  import opened Wrappers
  import opened LedgerTypes
  import opened Ledger
  import opened ToolEvidence

  datatype AdmissionDecision = Grant(grant: EffectGrant) | AwaitingDecision(interactionId: string) | Deny(code: string)

  /** What the executor reports: a receipt with its output, failure code or evidence. */
  datatype EffectOutcome = EffectOutcome(receipt: Receipt, detail: Detail)

  /** Why an effect is uncertain: saved evidence, or one of the three fixed notes. */
  datatype Note =
    | Said(text: string)
    | ReconciliationRequired   // started without a terminal result
    | AnotherDispatcher        // somebody else owns the started effect
    | NoCommittedReceipt       // a prepared tool needs trusted reconciliation

  datatype Disposition =
    | Completed(output: Json)
    | Failed(code: string)
    | Uncertain(note: Note)
    | Suspended(interactionId: string)
    | Denied(denial: string)
    | Cancelled

  datatype RuntimeError = Invalid | LedgerFailure(error: LedgerError) | AdmissionFailure | ExecutorFailure

  type Reply<T> = Result<T, RuntimeError>

  // --------------------------------------------------------- reading the log

  datatype Status = Running | SuspendedStatus | CompletedStatus | CancelledStatus | FailedStatus | UncertainStatus

  /** The status fold over the first `n` events of an execution; cancellation ends it. */
  function StatusUpTo(events: seq<Event>, n: nat): Option<Status>
    requires n <= |events|
  {
    if n == 0 then None
    else
      var earlier := StatusUpTo(events, n - 1);
      if earlier == Some(CancelledStatus) then earlier
      else match events[n - 1].kind
        case ExecutionCancelled => Some(CancelledStatus)
        case ExecutionSuspended => Some(SuspendedStatus)
        case EffectUncertain => Some(UncertainStatus)
        case EffectFailed => Some(FailedStatus)
        case EffectCompleted => Some(CompletedStatus)
        case ExecutionStarted => Some(Running)
        case _ => earlier
  }

  function StatusOf(log: seq<Event>, execution: string): Option<Status> {
    var events := EventsOf(log, execution, 0);
    StatusUpTo(events, |events|)
  }

  function DetailStatus(detail: Detail): ReceiptStatus {
    match detail
    case Output(_) => ReceiptCompleted
    case Code(_) => ReceiptFailed
    case Evidence(_) => ReceiptUncertain
  }

  function DetailDisposition(detail: Detail): Disposition {
    match detail
    case Output(output) => Completed(output)
    case Code(code) => Failed(code)
    case Evidence(evidence) => Uncertain(Said(evidence))
  }

  /** The disposition a saved receipt stands for, if it is this request's receipt. */
  function ReceiptDisposition(payload: Payload, effect: EffectRequest): Reply<Disposition> {
    match payload
    case Outcome(receipt, detail) =>
      if receipt.inputDigest != effect.inputDigest || receipt.effectId != effect.effectId then Err(Invalid)
      else if receipt.status != DetailStatus(detail) then Err(Invalid)
      else Ok(DetailDisposition(detail))
    case ToolReceipt(_, _, _, _, _, receipt, result, _) =>
      if receipt.inputDigest != effect.inputDigest || receipt.effectId != effect.effectId then Err(Invalid)
      else if receipt.status == ReceiptCompleted && result.Ok? then Ok(Completed(ToolJson(result.value)))
      else Err(Invalid)
    case _ => Err(Invalid)
  }

  function ProjectedOutput(payload: Payload): Json {
    match payload
    case Projection(_, Output(output)) => output
    case Outcome(_, Output(output)) => output
    case ToolReceipt(_, _, _, _, _, _, Ok(output), _) => ToolJson(output)
    case _ => Null
  }

  function ProjectedCode(payload: Payload): string {
    match payload
    case Projection(_, Code(code)) => code
    case Outcome(_, Code(code)) => code
    case DeniedEffect(_, code) => code
    case _ => "failed"
  }

  function ProjectedEvidence(payload: Payload): string {
    match payload
    case Projection(_, Evidence(evidence)) => evidence
    case Outcome(_, Evidence(evidence)) => evidence
    case ToolUncertain(_, _, _, evidence) => evidence
    case _ => "uncertain"
  }

  /** What one event says about the effect's terminal result, if anything. */
  function Verdict(event: Event, execution: string, effect: EffectRequest): Option<Reply<Disposition>> {
    if event.eventId == EffectId(execution, effect.effectId, ReceiptSlot) then Some(ReceiptDisposition(event.payload, effect))
    else if event.eventId == EffectId(execution, effect.effectId, CompletedSlot) then Some(Ok(Completed(ProjectedOutput(event.payload))))
    else if event.eventId == EffectId(execution, effect.effectId, FailedSlot) then Some(Ok(Failed(ProjectedCode(event.payload))))
    else if event.eventId == EffectId(execution, effect.effectId, UncertainSlot) then Some(Ok(Uncertain(Said(ProjectedEvidence(event.payload)))))
    else None
  }

  /** The first verdict among the first `n` events. */
  function TerminalUpTo(events: seq<Event>, n: nat, execution: string, effect: EffectRequest): Option<Reply<Disposition>>
    requires n <= |events|
  {
    if n == 0 then None
    else
      var earlier := TerminalUpTo(events, n - 1, execution, effect);
      if earlier.Some? then earlier else Verdict(events[n - 1], execution, effect)
  }

  function TerminalOf(log: seq<Event>, execution: string, effect: EffectRequest): Option<Reply<Disposition>> {
    var events := EventsOf(log, execution, 0);
    TerminalUpTo(events, |events|, execution, effect)
  }

  // ------------------------------------------------------------ what is written

  /** The facts `apply_effect` appends at most once. */
  datatype Goal =
    | PreparedGoal
    | AuthorizedGoal(grant: EffectGrant)
    | ReceiptGoal(grant: EffectGrant, outcome: EffectOutcome)
    | ProjectionGoal(detail: Detail)
    | DeniedGoal(code: string)
    | AwaitingGoal(interactionId: string)
    | SuspendedGoal(interactionId: string)

  function EffectFact(key: ExecutionKey, effect: EffectRequest, slot: Slot, kind: Kind, payload: Payload): Event {
    var id := EffectId(key.executionId, effect.effectId, slot);
    Event(id, key.turnId, key.executionId, 0, kind, id, payload)
  }

  function StartFact(key: ExecutionKey, effect: EffectRequest): Event {
    EffectFact(key, effect, StartedSlot, EffectStarted, StartedEffect(effect.effectId))
  }

  function GoalFact(key: ExecutionKey, effect: EffectRequest, goal: Goal): Event {
    match goal
    case PreparedGoal => EffectFact(key, effect, PreparedSlot, EffectPrepared, GenericPrepared(effect))
    case AuthorizedGoal(grant) => EffectFact(key, effect, AuthorizedSlot, EffectAuthorized, Granted(grant))
    case ReceiptGoal(_, outcome) =>
      EffectFact(key, effect, ReceiptSlot, EffectReceipt, Outcome(outcome.receipt, outcome.detail))
    case ProjectionGoal(detail) =>
      (match detail
       case Output(_) => EffectFact(key, effect, CompletedSlot, EffectCompleted, Projection(effect.effectId, detail))
       case Code(_) => EffectFact(key, effect, FailedSlot, EffectFailed, Projection(effect.effectId, detail))
       case Evidence(_) => EffectFact(key, effect, UncertainSlot, EffectUncertain, Projection(effect.effectId, detail)))
    case DeniedGoal(code) => EffectFact(key, effect, DeniedSlot, EffectDenied, DeniedEffect(effect.effectId, code))
    case AwaitingGoal(id) =>
      EffectFact(key, effect, AwaitingSlot, EffectAwaitingDecision, AwaitingEffect(effect.effectId, id))
    case SuspendedGoal(_) =>
      var id := SuspensionId(key.executionId, effect.effectId);
      Event(id, key.turnId, key.executionId, 0, ExecutionSuspended, id, SuspendedEffect(effect.effectId))
  }

  predicate RequestValid(effect: EffectRequest) {
    effect.effectId != "" && effect.operationKind != "" && effect.inputDigest != "" && effect.policyRevision != ""
  }

  predicate GrantBinds(grant: EffectGrant, effect: EffectRequest) {
    grant.effectId == effect.effectId && grant.inputDigest == effect.inputDigest
  }

  predicate ReceiptBinds(effect: EffectRequest, grant: EffectGrant, outcome: EffectOutcome) {
    && outcome.receipt.status == DetailStatus(outcome.detail)
    && outcome.receipt.effectId == effect.effectId
    && outcome.receipt.authorizationId == grant.authorizationId
    && outcome.receipt.inputDigest == effect.inputDigest
    && outcome.receipt.executorId != ""
    && outcome.receipt.executorRevision != ""
    && outcome.receipt.resultDigest != ""
  }

  // ------------------------------------------------------------------ one caller

  datatype Pc =
    | ReadStatus
    | ReadPrepared
    | Probe(slot: Slot)                       // no prepared fact: look for orphaned evidence
    | RecoverIdentity(saved: Event)           // prepared tool: observe its history
    | RecoverAuthorized(saved: Event)
    | RecoverStarted(bound: Bound)
    | RecoverReceipt(bound: Bound, started: bool)
    | LookupFact(goal: Goal)                      // first half of append_once
    | WriteFact(goal: Goal)                       // second half of append_once
    | ReadTerminal
    | ReadStarted
    | Decide
    | WriteStart(grant: EffectGrant)
    | ReadWinner
    | Execute(grant: EffectGrant)
    | Done(reply: Reply<Disposition>)
    | Crashed

  /** `entered`: its EffectStarted append succeeded. `executed`: it called the executor. */
  datatype Caller = Caller(key: ExecutionKey, effect: EffectRequest, pc: Pc, entered: bool, executed: bool)

  function Fresh(key: ExecutionKey, effect: EffectRequest): Caller {
    Caller(key, effect, ReadStatus, false, false)
  }

  /** What the ports would answer if this step asks them. */
  datatype Answers = Answers(decision: Reply<AdmissionDecision>, outcome: Reply<EffectOutcome>)

  datatype Stepped = Stepped(log: seq<Event>, caller: Caller)

  function AfterGoal(goal: Goal): Pc {
    match goal
    case PreparedGoal => ReadTerminal
    case AuthorizedGoal(grant) => WriteStart(grant)
    case ReceiptGoal(_, outcome) => LookupFact(ProjectionGoal(outcome.detail))
    case ProjectionGoal(detail) => Done(Ok(DetailDisposition(detail)))
    case DeniedGoal(code) => Done(Ok(Denied(code)))
    case AwaitingGoal(id) => LookupFact(SuspendedGoal(id))
    case SuspendedGoal(id) => Done(Ok(Suspended(id)))
  }

  function AfterDecision(effect: EffectRequest, decision: Reply<AdmissionDecision>): Pc {
    match decision
    case Err(error) => Done(Err(error))
    case Ok(Deny(code)) => LookupFact(DeniedGoal(code))
    case Ok(AwaitingDecision(id)) => LookupFact(AwaitingGoal(id))
    case Ok(Grant(grant)) => if GrantBinds(grant, effect) then LookupFact(AuthorizedGoal(grant)) else Done(Err(Invalid))
  }

  function AfterExecution(effect: EffectRequest, grant: EffectGrant, outcome: Reply<EffectOutcome>): Pc {
    match outcome
    case Err(error) => Done(Err(error))
    case Ok(outcome) =>
      if ReceiptBinds(effect, grant, outcome) then LookupFact(ReceiptGoal(grant, outcome)) else Done(Err(Invalid))
  }

  function AfterPrepared(c: Caller, saved: Option<Event>): Pc {
    match saved
    case None => Probe(AuthorizedSlot)
    case Some(event) =>
      if !IsEvidence(event, c.key, EffectId(c.key.executionId, c.effect.effectId, PreparedSlot), EffectPrepared) then Done(Err(Invalid))
      else match event.payload
        case GenericPrepared(_) => LookupFact(PreparedGoal)
        case ToolPrepared(_, _, _) => RecoverIdentity(event)
        case _ => Done(Err(Invalid))
  }

  function AfterProbe(slot: Slot): Pc {
    match slot
    case AuthorizedSlot => Probe(StartedSlot)
    case StartedSlot => Probe(ReceiptSlot)
    case _ => LookupFact(PreparedGoal)
  }

  function AfterIdentity(c: Caller, saved: Event, found: Option<Event>): Pc {
    match found
    case None => Done(Err(Invalid))
    case Some(event) =>
      if IsEvidence(event, c.key, StartedId(c.key.executionId), ExecutionStarted) && event.payload == Identity(c.key)
      then RecoverAuthorized(saved) else Done(Err(Invalid))
  }

  function AfterAuthorized(lib: Library, c: Caller, saved: Event, found: Option<Event>): Pc {
    match found
    case None => Done(Err(Invalid))
    case Some(event) =>
      if !IsEvidence(event, c.key, EffectId(c.key.executionId, c.effect.effectId, AuthorizedSlot), EffectAuthorized)
      then Done(Err(Invalid))
      else
        var bound := FromFacts(lib, c.key, c.effect.effectId, saved.payload, event.payload);
        if bound.Some? && bound.value.request == c.effect then RecoverStarted(bound.value) else Done(Err(Invalid))
  }

  function AfterToolStarted(c: Caller, bound: Bound, found: Option<Event>): Pc {
    match found
    case None => RecoverReceipt(bound, false)
    case Some(event) =>
      if IsEvidence(event, c.key, EffectId(c.key.executionId, c.effect.effectId, StartedSlot), EffectStarted)
         && event.payload == bound.StartedPayload()
      then RecoverReceipt(bound, true) else Done(Err(Invalid))
  }

  function AfterToolReceipt(lib: Library, c: Caller, bound: Bound, started: bool, found: Option<Event>): Reply<Disposition> {
    match found
    case None => Ok(Uncertain(NoCommittedReceipt))
    case Some(event) =>
      if !IsEvidence(event, c.key, EffectId(c.key.executionId, c.effect.effectId, ReceiptSlot), EffectReceipt) || !started
      then Err(Invalid)
      else match bound.ValidatedReceipt(lib, event.payload)
        case None => Err(Invalid)
        case Some(Ok(output)) => Ok(Completed(ToolJson(output)))
        case Some(Err(error)) => Ok(Failed(error))
  }

  function AfterLookup(c: Caller, goal: Goal, found: Option<Event>): Pc {
    match found
    case None => WriteFact(goal)
    case Some(existing) => if SameFact(existing, GoalFact(c.key, c.effect, goal)) then AfterGoal(goal) else Done(Err(Invalid))
  }

  function AfterStatus(c: Caller, log: seq<Event>): Pc {
    if !RequestValid(c.effect) then Done(Err(Invalid))
    else if c.key.executionId == "" then Done(Err(LedgerFailure(InvalidQuery)))
    else if StatusOf(log, c.key.executionId) == Some(CancelledStatus) then Done(Ok(Cancelled))
    else ReadPrepared
  }

  function FoundSlot(log: seq<Event>, c: Caller, slot: Slot): Option<Event> {
    Find(log, EffectId(c.key.executionId, c.effect.effectId, slot))
  }

  /** Where a step that writes nothing takes the caller. */
  function ReadStep(lib: Library, log: seq<Event>, c: Caller, answers: Answers): Pc {
    match c.pc
    case ReadStatus => AfterStatus(c, log)
    case ReadPrepared => AfterPrepared(c, FoundSlot(log, c, PreparedSlot))
    case Probe(slot) => if FoundSlot(log, c, slot).Some? then Done(Err(Invalid)) else AfterProbe(slot)
    case RecoverIdentity(saved) => AfterIdentity(c, saved, Find(log, StartedId(c.key.executionId)))
    case RecoverAuthorized(saved) => AfterAuthorized(lib, c, saved, FoundSlot(log, c, AuthorizedSlot))
    case RecoverStarted(bound) => AfterToolStarted(c, bound, FoundSlot(log, c, StartedSlot))
    case RecoverReceipt(bound, started) => Done(AfterToolReceipt(lib, c, bound, started, FoundSlot(log, c, ReceiptSlot)))
    case LookupFact(goal) => AfterLookup(c, goal, Find(log, GoalFact(c.key, c.effect, goal).eventId))
    case ReadTerminal =>
      (match TerminalOf(log, c.key.executionId, c.effect)
       case Some(reply) => Done(reply)
       case None => ReadStarted)
    case ReadStarted =>
      if FoundSlot(log, c, StartedSlot).Some? then Done(Ok(Uncertain(ReconciliationRequired))) else Decide
    case Decide => AfterDecision(c.effect, answers.decision)
    case ReadWinner =>
      (match TerminalOf(log, c.key.executionId, c.effect)
       case Some(reply) => Done(reply)
       case None => Done(Ok(Uncertain(AnotherDispatcher))))
    case _ => c.pc
  }

  /** The second half of append_once. */
  function WriteStep(log: seq<Event>, c: Caller, goal: Goal): Stepped {
    match Appended(log, GoalFact(c.key, c.effect, goal), false)
    case Ok(longer) => Stepped(longer, c.(pc := AfterGoal(goal)))
    case Err(error) => Stepped(log, c.(pc := Done(Err(LedgerFailure(error)))))
  }

  /** Only the caller whose start record is appended goes on to the executor. */
  function StartStep(log: seq<Event>, c: Caller, grant: EffectGrant): Stepped {
    match Appended(log, StartFact(c.key, c.effect), true)
    case Ok(longer) => Stepped(longer, c.(pc := Execute(grant), entered := true))
    case Err(CancelledExecution(_)) => Stepped(log, c.(pc := Done(Ok(Cancelled))))
    case Err(Conflict(_)) => Stepped(log, c.(pc := ReadWinner))
    case Err(error) => Stepped(log, c.(pc := Done(Err(LedgerFailure(error)))))
  }

  function ExecuteStep(log: seq<Event>, c: Caller, grant: EffectGrant, answers: Answers): Stepped {
    Stepped(log, c.(pc := AfterExecution(c.effect, grant, answers.outcome), executed := true))
  }

  /** One step of a caller. */
  function CallerStep(lib: Library, log: seq<Event>, c: Caller, answers: Answers): Stepped {
    match c.pc
    case WriteFact(goal) => WriteStep(log, c, goal)
    case WriteStart(grant) => StartStep(log, c, grant)
    case Execute(grant) => ExecuteStep(log, c, grant, answers)
    case _ => Stepped(log, c.(pc := ReadStep(lib, log, c, answers)))
  }

  // ----------------------------------------------------------------- all callers

  datatype Call = Call(caller: nat, execution: string, effect: string, grant: EffectGrant)

  /** `calls` records every call of the executor in order. */
  datatype State = State(log: seq<Event>, callers: map<nat, Caller>, calls: seq<Call>)

  datatype Action =
    | Spawn(id: nat, key: ExecutionKey, effect: EffectRequest)
    | Step(id: nat, answers: Answers)
    | Crash(id: nat)
    | Foreign(event: Event, checkCancel: bool)

  const INITIAL := State([], map[], [])

  /**
   What the rest of the program appends: execution starts, cancellations and any
   other fact, provided that its idempotency key is its identity, a start record
   goes through the cancellation check, and effect evidence that is not generic
   belongs to an effect prepared by the tool pipeline.
   */
  predicate ForeignAllowed(log: seq<Event>, event: Event, checkCancel: bool) {
    && event.idempotencyKey == event.eventId
    && (event.kind == EffectStarted ==> checkCancel)
    && (event.eventId.EffectId? ==>
          && event.executionId == event.eventId.execution
          && if event.eventId.slot == PreparedSlot then !event.payload.GenericPrepared?
             else PreparedByTool(log, event.eventId.execution, event.eventId.effect))
  }

  predicate PreparedByTool(log: seq<Event>, execution: string, effect: string) {
    exists p :: 0 <= p < |log| && log[p].eventId == EffectId(execution, effect, PreparedSlot) && !log[p].payload.GenericPrepared?
  }

  function Next(lib: Library, s: State, action: Action): State {
    match action
    case Spawn(id, key, effect) =>
      if id in s.callers then s else s.(callers := s.callers[id := Fresh(key, effect)])
    case Step(id, answers) =>
      if id !in s.callers then s
      else
        var c := s.callers[id];
        var r := CallerStep(lib, s.log, c, answers);
        State(r.log, s.callers[id := r.caller],
              if c.pc.Execute? then s.calls + [Call(id, c.key.executionId, c.effect.effectId, c.pc.grant)] else s.calls)
    case Crash(id) =>
      if id !in s.callers then s else s.(callers := s.callers[id := s.callers[id].(pc := Crashed)])
    case Foreign(event, checkCancel) =>
      var r := Appended(s.log, event, checkCancel);
      if ForeignAllowed(s.log, event, checkCancel) && r.Ok? then s.(log := r.value) else s
  }

  /** The state after the first `n` actions; an action that does not apply changes nothing. */
  function RunUpTo(lib: Library, s: State, actions: seq<Action>, n: nat): State
    requires n <= |actions|
  {
    if n == 0 then s else Next(lib, RunUpTo(lib, s, actions, n - 1), actions[n - 1])
  }

  function Run(lib: Library, s: State, actions: seq<Action>): State {
    RunUpTo(lib, s, actions, |actions|)
  }
}
