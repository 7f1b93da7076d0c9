/**
 Reconciliation of uncertain tool effects over the ledger: its atomic steps,
 taken by any number of callers that may crash between them.
 */
module Reconciliation {
  import opened Wrappers
  import opened LedgerTypes
  import opened Ledger
  import opened ToolEvidence

  datatype ReconcileError = Invalid | LedgerFailure(error: LedgerError) | InspectorFailure

  type Reply = Result<Resolution, ReconcileError>

  /** A trusted adapter's attestation, or its failure. */
  type Inspector = (ReconciliationRequest, EffectRequest, EffectGrant) -> Option<Resolution>

  // ------------------------------------------------------------------ the facts

  function SlotId(request: ReconciliationRequest, slot: Slot): EventId {
    EffectId(request.execution.executionId, request.effectId, slot)
  }

  function DecisionId(request: ReconciliationRequest): EventId {
    ReconciliationId(request.execution.executionId, request.effectId, request.reconciliationId)
  }

  function Fact(request: ReconciliationRequest, id: EventId, kind: Kind, payload: Payload): Event {
    Event(id, request.execution.turnId, request.execution.executionId, 0, kind, id, payload)
  }

  function DecisionFact(request: ReconciliationRequest, bound: Bound, resolution: Resolution): Event {
    Fact(request, DecisionId(request), EffectReconciled,
         Decision(Proof(request, resolution), bound.request.inputDigest, bound.authorization.constraintsDigest, bound.scope))
  }

  /** The receipt of a committed resolution carries the resolution and its request. */
  function ProvenReceipt(lib: Library, request: ReconciliationRequest, bound: Bound, resolution: Resolution): Option<Payload> {
    if !resolution.Committed? then None
    else
      var payload := bound.ReceiptPayload(lib, Ok(resolution.output));
      if payload.None? then None else Some(payload.value.(proof := Some(Proof(request, resolution))))
  }

  // ----------------------------------------------------------- reading the evidence

  /** The payload of the saved event with this id, if it is evidence of this kind. */
  function EvidenceAt(log: seq<Event>, request: ReconciliationRequest, id: EventId, kind: Kind): Option<Payload> {
    match Find(log, id)
    case None => None
    case Some(event) => if IsEvidence(event, request.execution, id, kind) then Some(event.payload) else None
  }

  predicate Identified(log: seq<Event>, request: ReconciliationRequest) {
    EvidenceAt(log, request, StartedId(request.execution.executionId), ExecutionStarted) == Some(Identity(request.execution))
  }

  function PreparedOf(lib: Library, log: seq<Event>, request: ReconciliationRequest): Option<Payload> {
    if lib.requestValid(request) && Identified(log, request) then EvidenceAt(log, request, SlotId(request, PreparedSlot), EffectPrepared)
    else None
  }

  function BoundOf(lib: Library, log: seq<Event>, request: ReconciliationRequest): Option<Bound> {
    var prepared := PreparedOf(lib, log, request);
    var authorized := EvidenceAt(log, request, SlotId(request, AuthorizedSlot), EffectAuthorized);
    if prepared.None? || authorized.None? then None
    else FromFacts(lib, request.execution, request.effectId, prepared.value, authorized.value)
  }

  /** All the evidence a reconciliation needs: an identified execution, bound preparation and grant, and the start. */
  function StartedBound(lib: Library, log: seq<Event>, request: ReconciliationRequest): Option<Bound> {
    var bound := BoundOf(lib, log, request);
    if bound.Some? && EvidenceAt(log, request, SlotId(request, StartedSlot), EffectStarted) == Some(bound.value.StartedPayload())
    then bound else None
  }

  /** The output of a saved receipt that is evidence of success. */
  function ReceiptOutput(lib: Library, request: ReconciliationRequest, bound: Bound, event: Event): Option<ToolOutput> {
    if !IsEvidence(event, request.execution, SlotId(request, ReceiptSlot), EffectReceipt) then None
    else match bound.ValidatedReceipt(lib, event.payload)
      case Some(Ok(output)) => Some(output)
      case _ => None
  }

  /** A saved decision agrees with the saved receipt, or with there being none. */
  predicate Agrees(lib: Library, request: ReconciliationRequest, bound: Bound, resolution: Resolution, receipt: Option<Event>) {
    if resolution.Committed? then
      && receipt.Some? && ReceiptOutput(lib, request, bound, receipt.value) == Some(resolution.output)
      && receipt.value.payload.proof == Some(Proof(request, resolution))
    else receipt.None?
  }

  function DecisionReply(lib: Library, request: ReconciliationRequest, bound: Bound, receipt: Option<Event>, decision: Event): Reply {
    if !IsEvidence(decision, request.execution, DecisionId(request), EffectReconciled) || !decision.payload.Decision?
    then Err(Invalid)
    else
      var resolution := decision.payload.decided.resolution;
      if bound.ResolutionValid(lib, Proof(request, resolution))
         && decision.payload == DecisionFact(request, bound, resolution).payload
         && Agrees(lib, request, bound, resolution, receipt)
      then Ok(resolution) else Err(Invalid)
  }

  /** The answer to another inspection that observes a committed receipt. */
  function Observed(lib: Library, request: ReconciliationRequest, bound: Bound, output: ToolOutput): Resolution {
    Committed(output, bound.ExecutorId(lib), bound.prepared.toolRevision,
              lib.receiptNote(request.execution.executionId, request.effectId))
  }

  // ------------------------------------------------------------------- one caller

  datatype Pc =
    | Begin
    | ReadPrepared
    | ReadAuthorized(prepared: Payload)
    | ReadStarted(bound: Bound)
    | ReadReceipt(bound: Bound)
    | ReadDecision(bound: Bound, receipt: Option<Event>)
    | Inspect(bound: Bound)
    | WriteReceipt(bound: Bound, resolution: Resolution)
    | CheckReceipt(bound: Bound, resolution: Resolution)
    | WriteDecision(bound: Bound, resolution: Resolution)
    | CheckDecision(bound: Bound, resolution: Resolution)
    | Done(reply: Reply)
    | Crashed

  datatype Caller = Caller(request: ReconciliationRequest, pc: Pc, inspected: bool)

  datatype Stepped = Stepped(log: seq<Event>, caller: Caller)

  function Fresh(request: ReconciliationRequest): Caller {
    Caller(request, Begin, false)
  }

  function AfterAuthorized(lib: Library, request: ReconciliationRequest, prepared: Payload, authorized: Option<Payload>): Pc {
    if authorized.None? then Done(Err(Invalid))
    else
      var bound := FromFacts(lib, request.execution, request.effectId, prepared, authorized.value);
      if bound.Some? then ReadStarted(bound.value) else Done(Err(Invalid))
  }

  function AfterReceipt(lib: Library, request: ReconciliationRequest, bound: Bound, found: Option<Event>): Pc {
    if found.Some? && ReceiptOutput(lib, request, bound, found.value).None? then Done(Err(Invalid))
    else ReadDecision(bound, found)
  }

  function AfterDecision(lib: Library, request: ReconciliationRequest, bound: Bound, receipt: Option<Event>, found: Option<Event>): Pc {
    if found.Some? then Done(DecisionReply(lib, request, bound, receipt, found.value))
    else if receipt.None? then Inspect(bound)
    else
      var output := ReceiptOutput(lib, request, bound, receipt.value);
      if output.None? then Done(Err(Invalid))
      else
        var proof := receipt.value.payload.proof;
        if proof.Some? && proof.value.request == request then WriteDecision(bound, proof.value.resolution)
        else Done(Ok(Observed(lib, request, bound, output.value)))
  }

  function AfterInspection(lib: Library, request: ReconciliationRequest, bound: Bound, answer: Option<Resolution>): Pc {
    if answer.None? then Done(Err(InspectorFailure))
    else if !bound.ResolutionValid(lib, Proof(request, answer.value)) then Done(Err(Invalid))
    else if !answer.value.Committed? then WriteDecision(bound, answer.value)
    else if ProvenReceipt(lib, request, bound, answer.value).None? then Done(Err(Invalid))
    else WriteReceipt(bound, answer.value)
  }

  /** Where a step that writes nothing takes the caller. */
  function ReadStep(lib: Library, log: seq<Event>, c: Caller): Pc {
    match c.pc
    case Begin =>
      if lib.requestValid(c.request) && Identified(log, c.request) then ReadPrepared else Done(Err(Invalid))
    case ReadPrepared =>
      (match EvidenceAt(log, c.request, SlotId(c.request, PreparedSlot), EffectPrepared)
       case None => Done(Err(Invalid))
       case Some(prepared) => ReadAuthorized(prepared))
    case ReadAuthorized(prepared) =>
      AfterAuthorized(lib, c.request, prepared, EvidenceAt(log, c.request, SlotId(c.request, AuthorizedSlot), EffectAuthorized))
    case ReadStarted(bound) =>
      if EvidenceAt(log, c.request, SlotId(c.request, StartedSlot), EffectStarted) == Some(bound.StartedPayload())
      then ReadReceipt(bound) else Done(Err(Invalid))
    case ReadReceipt(bound) => AfterReceipt(lib, c.request, bound, Find(log, SlotId(c.request, ReceiptSlot)))
    case ReadDecision(bound, receipt) => AfterDecision(lib, c.request, bound, receipt, Find(log, DecisionId(c.request)))
    case CheckReceipt(bound, resolution) =>
      if IsIdentical(Find(log, SlotId(c.request, ReceiptSlot)), ReceiptFact(lib, c.request, bound, resolution))
      then WriteDecision(bound, resolution) else Done(Err(Invalid))
    case CheckDecision(bound, resolution) =>
      if IsIdentical(Find(log, DecisionId(c.request)), DecisionFact(c.request, bound, resolution))
      then Done(Ok(resolution)) else Done(Err(Invalid))
    case _ => c.pc
  }

  function ReceiptFact(lib: Library, request: ReconciliationRequest, bound: Bound, resolution: Resolution): Event {
    var payload := ProvenReceipt(lib, request, bound, resolution);
    Fact(request, SlotId(request, ReceiptSlot), EffectReceipt, if payload.Some? then payload.value else NoPayload)
  }

  /** The saved event is this fact, but for its cursor. */
  predicate IsIdentical(found: Option<Event>, fact: Event) {
    found.Some? && found.value.(cursor := 0) == fact
  }

  /** Append a fact; on a conflict the next step compares the saved one. */
  function WriteStep(log: seq<Event>, c: Caller, fact: Event, written: Pc, conflict: Pc): Stepped {
    match Appended(log, fact, false)
    case Ok(longer) => Stepped(longer, c.(pc := written))
    case Err(Conflict(_)) => Stepped(log, c.(pc := conflict))
    case Err(error) => Stepped(log, c.(pc := Done(Err(LedgerFailure(error)))))
  }

  function ReceiptStep(lib: Library, log: seq<Event>, c: Caller, bound: Bound, resolution: Resolution): Stepped {
    WriteStep(log, c, ReceiptFact(lib, c.request, bound, resolution), WriteDecision(bound, resolution), CheckReceipt(bound, resolution))
  }

  function DecisionStep(log: seq<Event>, c: Caller, bound: Bound, resolution: Resolution): Stepped {
    WriteStep(log, c, DecisionFact(c.request, bound, resolution), Done(Ok(resolution)), CheckDecision(bound, resolution))
  }

  function CallerStep(lib: Library, log: seq<Event>, c: Caller, inspector: Inspector): Stepped {
    match c.pc
    case Inspect(bound) =>
      Stepped(log, c.(pc := AfterInspection(lib, c.request, bound, inspector(c.request, bound.request, bound.authorization)),
                      inspected := true))
    case WriteReceipt(bound, resolution) => ReceiptStep(lib, log, c, bound, resolution)
    case WriteDecision(bound, resolution) => DecisionStep(log, c, bound, resolution)
    case _ => Stepped(log, c.(pc := ReadStep(lib, log, c)))
  }

  // ------------------------------------------------------------------ all callers

  datatype State = State(log: seq<Event>, callers: map<nat, Caller>)

  datatype Action =
    | Spawn(id: nat, request: ReconciliationRequest)
    | Step(id: nat, inspector: Inspector)
    | Crash(id: nat)
    | Foreign(event: Event, checkCancel: bool)

  /** Others write what they like, under keys that are identities, but no decision. */
  predicate ForeignAllowed(event: Event) {
    event.idempotencyKey == event.eventId && !event.eventId.ReconciliationId?
  }

  function Next(lib: Library, s: State, action: Action): State {
    match action
    case Spawn(id, request) => if id in s.callers then s else s.(callers := s.callers[id := Fresh(request)])
    case Step(id, inspector) =>
      if id !in s.callers then s
      else
        var r := CallerStep(lib, s.log, s.callers[id], inspector);
        State(r.log, s.callers[id := r.caller])
    case Crash(id) => if id !in s.callers then s else s.(callers := s.callers[id := s.callers[id].(pc := Crashed)])
    case Foreign(event, checkCancel) =>
      var r := Appended(s.log, event, checkCancel);
      if ForeignAllowed(event) && r.Ok? then s.(log := r.value) else s
  }

  function RunUpTo(lib: Library, s: State, actions: seq<Action>, n: nat): State
    requires n <= |actions|
  {
    if n == 0 then s else Next(lib, RunUpTo(lib, s, actions, n - 1), actions[n - 1])
  }

  const INITIAL := State([], map[])

  // -------------------------------------------------------------------- invariants

  /** The receipt of this effect is saved and proves exactly this request and resolution. */
  ghost predicate ReceiptSaved(log: seq<Event>, proof: Proof) {
    var found := Find(log, SlotId(proof.request, ReceiptSlot));
    found.Some? && found.value.payload.ToolReceipt? && found.value.payload.proof == Some(proof)
  }

  /** A decision is committed only over an earlier receipt. */
  ghost predicate Backed(log: seq<Event>, i: int)
    requires 0 <= i < |log|
  {
    log[i].eventId.ReconciliationId? ==>
      && log[i].payload.Decision?
      && log[i].eventId == DecisionId(log[i].payload.decided.request)
      && (log[i].payload.decided.resolution.Committed? ==> ReceiptSaved(log[..i], log[i].payload.decided))
  }

  ghost predicate LogInv(log: seq<Event>) {
    && WellFormed(log)
    && (forall i :: 0 <= i < |log| ==> log[i].idempotencyKey == log[i].eventId)
    && (forall i :: 0 <= i < |log| ==> Backed(log, i))
  }

  /** What a saved and validated receipt for this call looks like. */
  ghost predicate Proven(lib: Library, log: seq<Event>, request: ReconciliationRequest, bound: Bound, resolution: Resolution) {
    Agrees(lib, request, bound, resolution, Find(log, SlotId(request, ReceiptSlot)))
  }

  ghost predicate Ready(lib: Library, log: seq<Event>, c: Caller, bound: Bound) {
    StartedBound(lib, log, c.request) == Some(bound)
  }

  ghost predicate PcOk(lib: Library, log: seq<Event>, c: Caller) {
    match c.pc
    case ReadPrepared => lib.requestValid(c.request) && Identified(log, c.request)
    case ReadAuthorized(prepared) => PreparedOf(lib, log, c.request) == Some(prepared)
    case ReadStarted(bound) => BoundOf(lib, log, c.request) == Some(bound)
    case ReadReceipt(bound) => Ready(lib, log, c, bound)
    case ReadDecision(bound, receipt) =>
      Ready(lib, log, c, bound) && (receipt.Some? ==> Find(log, SlotId(c.request, ReceiptSlot)) == receipt)
    case Inspect(bound) => Ready(lib, log, c, bound)
    case WriteReceipt(bound, resolution) =>
      && Ready(lib, log, c, bound) && bound.ResolutionValid(lib, Proof(c.request, resolution))
      && ProvenReceipt(lib, c.request, bound, resolution).Some?
    case CheckReceipt(bound, resolution) =>
      && Ready(lib, log, c, bound) && bound.ResolutionValid(lib, Proof(c.request, resolution))
      && ProvenReceipt(lib, c.request, bound, resolution).Some?
    case WriteDecision(bound, resolution) =>
      && Ready(lib, log, c, bound) && bound.ResolutionValid(lib, Proof(c.request, resolution))
      && (resolution.Committed? ==> Proven(lib, log, c.request, bound, resolution))
    case CheckDecision(bound, resolution) =>
      && Ready(lib, log, c, bound) && bound.ResolutionValid(lib, Proof(c.request, resolution))
      && (resolution.Committed? ==> Proven(lib, log, c.request, bound, resolution))
    case _ => true
  }

  ghost predicate Inv(lib: Library, s: State) {
    LogInv(s.log) && forall id :: id in s.callers ==> PcOk(lib, s.log, s.callers[id])
  }

  // ---------------------------------------------------------------- growing the log

  lemma EvidenceIsStable(log: seq<Event>, longer: seq<Event>, request: ReconciliationRequest, id: EventId, kind: Kind)
    requires log <= longer && EvidenceAt(log, request, id, kind).Some?
    ensures EvidenceAt(longer, request, id, kind) == EvidenceAt(log, request, id, kind)
  {
    FindIsStable(log, longer, id);
  }

  lemma IdentifiedIsStable(log: seq<Event>, longer: seq<Event>, request: ReconciliationRequest)
    requires log <= longer && Identified(log, request)
    ensures Identified(longer, request)
  {
    EvidenceIsStable(log, longer, request, StartedId(request.execution.executionId), ExecutionStarted);
  }

  lemma PreparedIsStable(lib: Library, log: seq<Event>, longer: seq<Event>, request: ReconciliationRequest)
    requires log <= longer && PreparedOf(lib, log, request).Some?
    ensures PreparedOf(lib, longer, request) == PreparedOf(lib, log, request)
  {
    IdentifiedIsStable(log, longer, request);
    EvidenceIsStable(log, longer, request, SlotId(request, PreparedSlot), EffectPrepared);
  }

  lemma BoundIsStable(lib: Library, log: seq<Event>, longer: seq<Event>, request: ReconciliationRequest)
    requires log <= longer && BoundOf(lib, log, request).Some?
    ensures BoundOf(lib, longer, request) == BoundOf(lib, log, request)
  {
    PreparedIsStable(lib, log, longer, request);
    EvidenceIsStable(log, longer, request, SlotId(request, AuthorizedSlot), EffectAuthorized);
  }

  lemma StartedIsStable(lib: Library, log: seq<Event>, longer: seq<Event>, request: ReconciliationRequest)
    requires log <= longer && StartedBound(lib, log, request).Some?
    ensures StartedBound(lib, longer, request) == StartedBound(lib, log, request)
  {
    BoundIsStable(lib, log, longer, request);
    EvidenceIsStable(log, longer, request, SlotId(request, StartedSlot), EffectStarted);
  }

  lemma ProvenIsStable(lib: Library, log: seq<Event>, longer: seq<Event>, request: ReconciliationRequest, bound: Bound, resolution: Resolution)
    requires log <= longer && resolution.Committed? && Proven(lib, log, request, bound, resolution)
    ensures Proven(lib, longer, request, bound, resolution)
  {
    FindIsStable(log, longer, SlotId(request, ReceiptSlot));
  }

  lemma PcOkIsStable(lib: Library, log: seq<Event>, longer: seq<Event>, c: Caller)
    requires log <= longer && PcOk(lib, log, c)
    ensures PcOk(lib, longer, c)
  {
    match c.pc
    case ReadPrepared => IdentifiedIsStable(log, longer, c.request);
    case ReadAuthorized(_) => PreparedIsStable(lib, log, longer, c.request);
    case ReadStarted(_) => BoundIsStable(lib, log, longer, c.request);
    case ReadReceipt(_) => StartedIsStable(lib, log, longer, c.request);
    case ReadDecision(_, receipt) =>
      StartedIsStable(lib, log, longer, c.request);
      if receipt.Some? { FindIsStable(log, longer, SlotId(c.request, ReceiptSlot)); }
    case Inspect(_) => StartedIsStable(lib, log, longer, c.request);
    case WriteReceipt(_, _) => StartedIsStable(lib, log, longer, c.request);
    case CheckReceipt(_, _) => StartedIsStable(lib, log, longer, c.request);
    case WriteDecision(bound, resolution) =>
      StartedIsStable(lib, log, longer, c.request);
      if resolution.Committed? { ProvenIsStable(lib, log, longer, c.request, bound, resolution); }
    case CheckDecision(bound, resolution) =>
      StartedIsStable(lib, log, longer, c.request);
      if resolution.Committed? { ProvenIsStable(lib, log, longer, c.request, bound, resolution); }
    case _ =>
  }

  /** An appended event is found under its identity. */
  lemma AppendedIsFound(log: seq<Event>, event: Event, checkCancel: bool)
    requires WellFormed(log) && Appended(log, event, checkCancel).Ok?
    ensures var longer := Appended(log, event, checkCancel).value;
            Find(log, event.eventId).None? && Find(longer, event.eventId) == Some(event.(cursor := |log| + 1))
  {
    var longer := Appended(log, event, checkCancel).value;
    FindUpToIsStable(log, longer, |log|, event.eventId);
  }

  lemma AppendKeepsLog(log: seq<Event>, event: Event, checkCancel: bool)
    requires LogInv(log) && event.idempotencyKey == event.eventId && Appended(log, event, checkCancel).Ok?
    requires event.eventId.ReconciliationId? ==>
               && event.payload.Decision? && event.eventId == DecisionId(event.payload.decided.request)
               && (event.payload.decided.resolution.Committed? ==> ReceiptSaved(log, event.payload.decided))
    ensures LogInv(Appended(log, event, checkCancel).value)
  {
    var longer := Appended(log, event, checkCancel).value;
    AppendedKeepsWellFormed(log, event, checkCancel);
    forall i | 0 <= i < |longer| ensures Backed(longer, i) {
      if i < |log| {
        assert Backed(log, i);
        assert longer[..i] == log[..i];
      } else {
        assert longer[..i] == log;
      }
    }
  }

  // --------------------------------------------------------------------- one step

  /** A validated receipt that carries a proof agrees with it. */
  lemma SavedProofAgrees(lib: Library, request: ReconciliationRequest, bound: Bound, event: Event)
    requires ReceiptOutput(lib, request, bound, event).Some?
    requires event.payload.proof.Some? && event.payload.proof.value.request == request
    ensures var resolution := event.payload.proof.value.resolution;
            && resolution.Committed? && bound.ResolutionValid(lib, Proof(request, resolution))
            && Agrees(lib, request, bound, resolution, Some(event))
  {
  }

  /** The receipt a caller writes is one it would accept. */
  lemma WrittenReceiptAgrees(lib: Library, request: ReconciliationRequest, bound: Bound, resolution: Resolution, event: Event)
    requires bound.ResolutionValid(lib, Proof(request, resolution))
    requires ProvenReceipt(lib, request, bound, resolution).Some?
    requires event.(cursor := 0) == ReceiptFact(lib, request, bound, resolution)
    ensures Agrees(lib, request, bound, resolution, Some(event))
  {
  }

  lemma ReadDecisionKeeps(lib: Library, log: seq<Event>, c: Caller)
    requires PcOk(lib, log, c) && c.pc.ReadDecision?
    ensures PcOk(lib, log, c.(pc := ReadStep(lib, log, c)))
  {
    var receipt := c.pc.receipt;
    if receipt.Some? && ReceiptOutput(lib, c.request, c.pc.bound, receipt.value).Some?
       && receipt.value.payload.proof.Some? && receipt.value.payload.proof.value.request == c.request
    { SavedProofAgrees(lib, c.request, c.pc.bound, receipt.value); }
  }

  lemma CheckReceiptKeeps(lib: Library, log: seq<Event>, c: Caller)
    requires PcOk(lib, log, c) && c.pc.CheckReceipt?
    ensures PcOk(lib, log, c.(pc := ReadStep(lib, log, c)))
  {
    var found := Find(log, SlotId(c.request, ReceiptSlot));
    if IsIdentical(found, ReceiptFact(lib, c.request, c.pc.bound, c.pc.resolution)) {
      WrittenReceiptAgrees(lib, c.request, c.pc.bound, c.pc.resolution, found.value);
    }
  }

  /** The steps that gather evidence. */
  predicate Gathers(pc: Pc) {
    pc.Begin? || pc.ReadPrepared? || pc.ReadAuthorized? || pc.ReadStarted? || pc.ReadReceipt?
  }

  lemma GatheringKeeps(lib: Library, log: seq<Event>, c: Caller)
    requires PcOk(lib, log, c) && Gathers(c.pc)
    ensures PcOk(lib, log, c.(pc := ReadStep(lib, log, c)))
  {
  }

  lemma ReadKeeps(lib: Library, log: seq<Event>, c: Caller)
    requires PcOk(lib, log, c) && !c.pc.Inspect? && !c.pc.WriteReceipt? && !c.pc.WriteDecision?
    ensures PcOk(lib, log, c.(pc := ReadStep(lib, log, c)))
  {
    if Gathers(c.pc) { GatheringKeeps(lib, log, c); }
    else if c.pc.ReadDecision? { ReadDecisionKeeps(lib, log, c); }
    else if c.pc.CheckReceipt? { CheckReceiptKeeps(lib, log, c); }
  }

  /** Where an attestation leads: an error, a receipt to write, or a decision that needs none. */
  lemma AnswerLeads(lib: Library, request: ReconciliationRequest, bound: Bound, answer: Option<Resolution>)
    ensures var pc := AfterInspection(lib, request, bound, answer);
            || pc.Done?
            || (answer.Some? && bound.ResolutionValid(lib, Proof(request, answer.value))
                && (if answer.value.Committed?
                    then pc == WriteReceipt(bound, answer.value) && ProvenReceipt(lib, request, bound, answer.value).Some?
                    else pc == WriteDecision(bound, answer.value)))
  {
  }

  lemma AnswerKeeps(lib: Library, log: seq<Event>, c: Caller, bound: Bound, answer: Option<Resolution>)
    requires Ready(lib, log, c, bound)
    ensures PcOk(lib, log, c.(pc := AfterInspection(lib, c.request, bound, answer), inspected := true))
  {
    AnswerLeads(lib, c.request, bound, answer);
  }

  lemma InspectionKeeps(lib: Library, log: seq<Event>, c: Caller, inspector: Inspector)
    requires PcOk(lib, log, c) && c.pc.Inspect?
    ensures CallerStep(lib, log, c, inspector).log == log && PcOk(lib, log, CallerStep(lib, log, c, inspector).caller)
  {
    var bound := c.pc.bound;
    AnswerKeeps(lib, log, c, bound, inspector(c.request, bound.request, bound.authorization));
  }

  /** The log with a proven receipt appended: the decision may follow. */
  lemma ReceiptAppended(lib: Library, log: seq<Event>, request: ReconciliationRequest, bound: Bound, resolution: Resolution)
    requires LogInv(log) && bound.ResolutionValid(lib, Proof(request, resolution))
    requires ProvenReceipt(lib, request, bound, resolution).Some?
    requires Appended(log, ReceiptFact(lib, request, bound, resolution), false).Ok?
    ensures var longer := Appended(log, ReceiptFact(lib, request, bound, resolution), false).value;
            LogInv(longer) && Proven(lib, longer, request, bound, resolution)
  {
    var fact := ReceiptFact(lib, request, bound, resolution);
    AppendKeepsLog(log, fact, false);
    AppendedIsFound(log, fact, false);
    WrittenReceiptAgrees(lib, request, bound, resolution, fact.(cursor := |log| + 1));
  }

  /** A write either appends its fact or leaves the log and looks at what is there. */
  lemma WriteStepEnds(log: seq<Event>, c: Caller, fact: Event, written: Pc, conflict: Pc)
    ensures var appended := Appended(log, fact, false);
            WriteStep(log, c, fact, written, conflict)
            == if appended.Ok? then Stepped(appended.value, c.(pc := written)) else Stepped(log, c.(pc := conflict))
  {
  }

  ghost predicate StepKeeps(lib: Library, log: seq<Event>, r: Stepped) {
    log <= r.log && LogInv(r.log) && PcOk(lib, r.log, r.caller)
  }

  /** A caller with its evidence and a valid attestation, about to write. */
  ghost predicate Attested(lib: Library, log: seq<Event>, c: Caller, bound: Bound, resolution: Resolution) {
    Ready(lib, log, c, bound) && bound.ResolutionValid(lib, Proof(c.request, resolution))
  }

  lemma ReceiptStepKeeps(lib: Library, log: seq<Event>, c: Caller, bound: Bound, resolution: Resolution)
    requires LogInv(log) && Attested(lib, log, c, bound, resolution) && ProvenReceipt(lib, c.request, bound, resolution).Some?
    ensures StepKeeps(lib, log, ReceiptStep(lib, log, c, bound, resolution))
  {
    var fact := ReceiptFact(lib, c.request, bound, resolution);
    var appended := Appended(log, fact, false);
    WriteStepEnds(log, c, fact, WriteDecision(bound, resolution), CheckReceipt(bound, resolution));
    if appended.Ok? {
      ReceiptAppended(lib, log, c.request, bound, resolution);
      StartedIsStable(lib, log, appended.value, c.request);
      assert PcOk(lib, appended.value, c.(pc := WriteDecision(bound, resolution)));
    } else {
      assert PcOk(lib, log, c.(pc := CheckReceipt(bound, resolution)));
    }
  }

  lemma ProvenIsSaved(lib: Library, log: seq<Event>, request: ReconciliationRequest, bound: Bound, resolution: Resolution)
    requires resolution.Committed? && Proven(lib, log, request, bound, resolution)
    ensures ReceiptSaved(log, Proof(request, resolution))
  {
  }

  lemma DecisionAppended(lib: Library, log: seq<Event>, request: ReconciliationRequest, bound: Bound, resolution: Resolution)
    requires LogInv(log) && (resolution.Committed? ==> ReceiptSaved(log, Proof(request, resolution)))
    requires Appended(log, DecisionFact(request, bound, resolution), false).Ok?
    ensures LogInv(Appended(log, DecisionFact(request, bound, resolution), false).value)
  {
    AppendKeepsLog(log, DecisionFact(request, bound, resolution), false);
  }

  lemma DecisionStepKeeps(lib: Library, log: seq<Event>, c: Caller, bound: Bound, resolution: Resolution)
    requires LogInv(log) && Attested(lib, log, c, bound, resolution)
    requires resolution.Committed? ==> Proven(lib, log, c.request, bound, resolution)
    ensures StepKeeps(lib, log, DecisionStep(log, c, bound, resolution))
  {
    var fact := DecisionFact(c.request, bound, resolution);
    WriteStepEnds(log, c, fact, Done(Ok(resolution)), CheckDecision(bound, resolution));
    if Appended(log, fact, false).Ok? {
      if resolution.Committed? { ProvenIsSaved(lib, log, c.request, bound, resolution); }
      DecisionAppended(lib, log, c.request, bound, resolution);
    } else {
      assert PcOk(lib, log, c.(pc := CheckDecision(bound, resolution)));
    }
  }

  lemma CallerStepKeeps(lib: Library, log: seq<Event>, c: Caller, inspector: Inspector)
    requires LogInv(log) && PcOk(lib, log, c)
    ensures StepKeeps(lib, log, CallerStep(lib, log, c, inspector))
  {
    if c.pc.WriteReceipt? { ReceiptStepKeeps(lib, log, c, c.pc.bound, c.pc.resolution); }
    else if c.pc.WriteDecision? { DecisionStepKeeps(lib, log, c, c.pc.bound, c.pc.resolution); }
    else if c.pc.Inspect? { InspectionKeeps(lib, log, c, inspector); }
    else { ReadKeeps(lib, log, c); }
  }

  lemma NextKeeps(lib: Library, s: State, action: Action)
    requires Inv(lib, s)
    ensures Inv(lib, Next(lib, s, action)) && s.log <= Next(lib, s, action).log
  {
    var t := Next(lib, s, action);
    match action
    case Spawn(_, _) =>
    case Crash(_) =>
    case Step(id, inspector) =>
      if id in s.callers {
        CallerStepKeeps(lib, s.log, s.callers[id], inspector);
        OthersKeep(lib, s, t, id);
      }
    case Foreign(event, checkCancel) =>
      if ForeignAllowed(event) && Appended(s.log, event, checkCancel).Ok? {
        AppendKeepsLog(s.log, event, checkCancel);
        forall id | id in s.callers ensures PcOk(lib, t.log, s.callers[id]) { PcOkIsStable(lib, s.log, t.log, s.callers[id]); }
      }
  }

  lemma OthersKeep(lib: Library, s: State, t: State, id: nat)
    requires Inv(lib, s) && s.log <= t.log && id in s.callers && id in t.callers && t.callers == s.callers[id := t.callers[id]]
    requires PcOk(lib, t.log, t.callers[id])
    ensures forall other :: other in t.callers ==> PcOk(lib, t.log, t.callers[other])
  {
    forall other | other in t.callers ensures PcOk(lib, t.log, t.callers[other]) {
      if other != id { PcOkIsStable(lib, s.log, t.log, s.callers[other]); }
    }
  }

  lemma {:induction false} RunKeepsInv(lib: Library, s: State, actions: seq<Action>, n: nat)
    requires Inv(lib, s) && n <= |actions|
    ensures Inv(lib, RunUpTo(lib, s, actions, n)) && s.log <= RunUpTo(lib, s, actions, n).log
  {
    if n > 0 {
      RunKeepsInv(lib, s, actions, n - 1);
      NextKeeps(lib, RunUpTo(lib, s, actions, n - 1), actions[n - 1]);
    }
  }

  lemma ReachableCaller(lib: Library, actions: seq<Action>, s: State, id: nat)
    requires s == RunUpTo(lib, INITIAL, actions, |actions|) && id in s.callers
    ensures LogInv(s.log) && PcOk(lib, s.log, s.callers[id])
  {
    RunKeepsInv(lib, INITIAL, actions, |actions|);
  }

  // ------------------------------------------------------------------ main results

  /**
   Over every interleaving of callers, crashes and other writers: a committed
   decision stands behind the one receipt of its effect, saved earlier, that
   carries the same request and resolution.
   */
  lemma CommittedDecisionsAreBacked(lib: Library, actions: seq<Action>, d: nat) returns (r: nat)
    requires var log := RunUpTo(lib, INITIAL, actions, |actions|).log;
             d < |log| && log[d].eventId.ReconciliationId?
             && log[d].payload.Decision? && log[d].payload.decided.resolution.Committed?
    ensures var log := RunUpTo(lib, INITIAL, actions, |actions|).log;
            && r < d && log[r].eventId == SlotId(log[d].payload.decided.request, ReceiptSlot)
            && log[r].payload.ToolReceipt? && log[r].payload.proof == Some(log[d].payload.decided)
            && forall k :: 0 <= k < |log| && log[k].eventId == log[r].eventId ==> k == r
  {
    var log := RunUpTo(lib, INITIAL, actions, |actions|).log;
    RunKeepsInv(lib, INITIAL, actions, |actions|);
    assert Backed(log, d);
    var id := SlotId(log[d].payload.decided.request, ReceiptSlot);
    var found := Find(log[..d], id);
    var i :| 0 <= i < d && log[..d][i] == found.value && log[..d][i].eventId == id;
    r := i;
  }

  /** A call that will find a receipt: it has not inspected and is on no path that does. */
  ghost predicate Observing(log: seq<Event>, c: Caller) {
    && Find(log, SlotId(c.request, ReceiptSlot)).Some?
    && !c.inspected && !c.pc.Inspect? && !c.pc.WriteReceipt? && !c.pc.CheckReceipt?
    && (c.pc.ReadDecision? ==> c.pc.receipt.Some?)
  }

  lemma ObservingStep(lib: Library, log: seq<Event>, c: Caller, inspector: Inspector)
    requires Observing(log, c)
    ensures var r := CallerStep(lib, log, c, inspector);
            r.caller.request == c.request && !r.caller.inspected && !r.caller.pc.Inspect? && !r.caller.pc.WriteReceipt?
            && !r.caller.pc.CheckReceipt? && (r.caller.pc.ReadDecision? ==> r.caller.pc.receipt.Some?)
  {
  }

  lemma ObservingStays(lib: Library, s: State, t: State, id: nat, action: Action)
    requires t == Next(lib, s, action) && s.log <= t.log
    requires id in s.callers && Observing(s.log, s.callers[id])
    ensures id in t.callers && t.callers[id].request == s.callers[id].request && Observing(t.log, t.callers[id])
  {
    var c := s.callers[id];
    FindIsStable(s.log, t.log, SlotId(c.request, ReceiptSlot));
    if action.Step? && action.id == id {
      ObservingStep(lib, s.log, c, action.inspector);
    }
  }

  lemma {:induction false} ObservingRun(lib: Library, s: State, id: nat, actions: seq<Action>, n: nat)
    requires Inv(lib, s) && id in s.callers && Observing(s.log, s.callers[id]) && n <= |actions|
    ensures var t := RunUpTo(lib, s, actions, n);
            id in t.callers && t.callers[id].request == s.callers[id].request && Observing(t.log, t.callers[id])
  {
    if n > 0 {
      ObservingRun(lib, s, id, actions, n - 1);
      RunKeepsInv(lib, s, actions, n - 1);
      NextKeeps(lib, RunUpTo(lib, s, actions, n - 1), actions[n - 1]);
      ObservingStays(lib, RunUpTo(lib, s, actions, n - 1), RunUpTo(lib, s, actions, n), id, actions[n - 1]);
    }
  }

  /** A call made once the receipt is saved never invokes the inspector, whatever happens meanwhile. */
  lemma ReceiptPreventsInspection(lib: Library, before: seq<Action>, id: nat, request: ReconciliationRequest, after: seq<Action>)
    requires var s := RunUpTo(lib, INITIAL, before, |before|);
             id !in s.callers && Find(s.log, SlotId(request, ReceiptSlot)).Some?
    ensures var s := RunUpTo(lib, INITIAL, before, |before|);
            var t := RunUpTo(lib, Next(lib, s, Spawn(id, request)), after, |after|);
            id in t.callers && !t.callers[id].inspected
  {
    var s := RunUpTo(lib, INITIAL, before, |before|);
    RunKeepsInv(lib, INITIAL, before, |before|);
    NextKeeps(lib, s, Spawn(id, request));
    ObservingRun(lib, Next(lib, s, Spawn(id, request)), id, after, |after|);
  }
}
