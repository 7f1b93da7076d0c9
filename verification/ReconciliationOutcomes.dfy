/**
 What reconciling a tool effect does, written out event by event, for every ledger: by
 the saved evidence, receipt and decision, or else by what the inspector attests.
 */
module ReconciliationOutcomes {
  import opened Wrappers
  import opened LedgerTypes
  import opened Ledger
  import opened ToolEvidence
  import opened EvidenceLaws
  import opened Reconciliation
  import opened ReconciliationAlone

  /** The reply, the log left and whether the inspector was asked. */
  datatype Ending = Ending(reply: Reply, log: seq<Event>, inspected: bool)

  /** The request is well formed, and the execution, preparation, grant and start of its effect are saved and bound. */
  ghost predicate IsReady(lib: Library, log: seq<Event>, request: ReconciliationRequest, b: Bound) {
    && lib.requestValid(request) && b.request.effectId == request.effectId
    && WellBound(lib, request.execution, b) && IsToolBound(b, log, request.execution) && IsToolStarted(log, request.execution, b)
  }

  function ReceiptOf(request: ReconciliationRequest): EventId {
    EffectId(request.execution.executionId, request.effectId, ReceiptSlot)
  }

  function DecisionOf(request: ReconciliationRequest): EventId {
    ReconciliationId(request.execution.executionId, request.effectId, request.reconciliationId)
  }

  function DecisionPayload(request: ReconciliationRequest, b: Bound, resolution: Resolution): Payload {
    Decision(Proof(request, resolution), b.request.inputDigest, b.authorization.constraintsDigest, b.scope)
  }

  /** The log with the decision. */
  function Decided(log: seq<Event>, request: ReconciliationRequest, b: Bound, resolution: Resolution): seq<Event> {
    log + [FactAt(request.execution, DecisionOf(request), |log| + 1, EffectReconciled, DecisionPayload(request, b, resolution))]
  }

  /** The log with the receipt of a committed output and its proof. */
  function Received(lib: Library, log: seq<Event>, request: ReconciliationRequest, b: Bound, resolution: Resolution): seq<Event>
    requires resolution.Committed?
  {
    log + [FactAt(request.execution, ReceiptOf(request), |log| + 1, EffectReceipt,
                  ToolReceiptOf(lib, b, Ok(resolution.output), Some(Proof(request, resolution))))]
  }

  /** What an attestation comes to: an error, the decision, or the receipt and then the decision. */
  function Inspected(lib: Library, log: seq<Event>, request: ReconciliationRequest, b: Bound, answer: Option<Resolution>): Ending {
    if answer.None? then Ending(Err(InspectorFailure), log, true)
    else if !Attests(lib, b, request, answer.value) then Ending(Err(Invalid), log, true)
    else match answer.value
      case Committed(output, _, _, _) =>
        if lib.resultValid(b.grant, output)
        then Ending(Ok(answer.value), Decided(Received(lib, log, request, b, answer.value), request, b, answer.value), true)
        else Ending(Err(Invalid), log, true)
      case _ => Ending(Ok(answer.value), Decided(log, request, b, answer.value), true)
  }

  /** The receipt of this output is saved: its own proof is decided, and any other call observes it. */
  function ReceiptAnswered(lib: Library, log: seq<Event>, request: ReconciliationRequest, b: Bound, output: ToolOutput, proof: Option<Proof>): Ending {
    if proof.Some? && proof.value.request == request
    then Ending(Ok(proof.value.resolution), Decided(log, request, b, proof.value.resolution), false)
    else Ending(Ok(Committed(output, lib.executorName(b.prepared.toolName), b.prepared.toolRevision,
                             lib.receiptNote(request.execution.executionId, request.effectId))), log, false)
  }

  /** A valid decision is saved, over the receipt it commits or over none. */
  ghost predicate IsDecided(lib: Library, log: seq<Event>, request: ReconciliationRequest, b: Bound, resolution: Resolution) {
    && Holds(log, request.execution, DecisionOf(request), EffectReconciled, DecisionPayload(request, b, resolution))
    && Attests(lib, b, request, resolution)
    && match resolution
       case Committed(output, _, _, _) =>
         Definitive(lib, b, Ok(output)) && IsToolReceipt(lib, log, request.execution, b, Ok(output), Some(Proof(request, resolution)))
       case _ => Absent(log, ReceiptOf(request))
  }

  /** Neither receipt nor decision is saved. */
  ghost predicate IsNew(log: seq<Event>, request: ReconciliationRequest) {
    Free(log, ReceiptOf(request)) && Free(log, DecisionOf(request))
  }

  /** The receipt of this output is saved, and no decision of this call. */
  ghost predicate IsUndecided(lib: Library, log: seq<Event>, request: ReconciliationRequest, b: Bound, output: ToolOutput, proof: Option<Proof>) {
    && Definitive(lib, b, Ok(output)) && IsToolReceipt(lib, log, request.execution, b, Ok(output), proof)
    && Free(log, DecisionOf(request))
  }

  /** What is saved as receipt or decision is no valid one. */
  ghost predicate IsMisfit(lib: Library, log: seq<Event>, request: ReconciliationRequest, b: Bound) {
    || (!Absent(log, ReceiptOf(request)) && forall output :: !IsToolReceived(lib, log, request.execution, b, Ok(output)))
    || (!Absent(log, DecisionOf(request)) && forall resolution :: !IsDecided(lib, log, request, b, resolution))
  }

  /** What the call comes to with this binding, by what else is saved when it begins. */
  ghost predicate IsAnswered(lib: Library, log: seq<Event>, request: ReconciliationRequest, b: Bound, inspector: Inspector, e: Ending) {
    && (IsNew(log, request) ==> e == Inspected(lib, log, request, b, inspector(request, b.request, b.authorization)))
    && (IsMisfit(lib, log, request, b) ==> e == Ending(Err(Invalid), log, false))
    && (forall output, proof :: IsUndecided(lib, log, request, b, output, proof) ==> e == ReceiptAnswered(lib, log, request, b, output, proof))
    && (forall resolution :: IsDecided(lib, log, request, b, resolution) ==> e == Ending(Ok(resolution), log, false))
  }

  /** What the call comes to on this ledger. */
  ghost predicate IsAsWritten(lib: Library, log: seq<Event>, request: ReconciliationRequest, inspector: Inspector, e: Ending) {
    && ((forall b :: !IsReady(lib, log, request, b)) ==> e == Ending(Err(Invalid), log, false))
    && (forall b :: IsReady(lib, log, request, b) ==> IsAnswered(lib, log, request, b, inspector, e))
  }

  // ------------------------------------------------------------------ what the reads find

  lemma EvidenceExactlyWhen(log: seq<Event>, request: ReconciliationRequest, id: EventId, kind: Kind, payload: Payload)
    requires WellFormed(log)
    ensures EvidenceAt(log, request, id, kind) == Some(payload) <==> Holds(log, request.execution, id, kind, payload)
  {
    if Holds(log, request.execution, id, kind, payload) { HoldsIsFound(log, request.execution, id, kind, payload); }
    if EvidenceAt(log, request, id, kind) == Some(payload) {
      var i :| 0 <= i < |log| && log[i] == Find(log, id).value && log[i].eventId == id;
      assert log[i] == FactAt(request.execution, id, i + 1, kind, payload);
    }
  }

  lemma PreparedExactlyWhen(lib: Library, log: seq<Event>, request: ReconciliationRequest, payload: Payload)
    requires WellFormed(log)
    ensures PreparedOf(lib, log, request) == Some(payload)
            <==> && lib.requestValid(request)
                 && Holds(log, request.execution, StartedId(request.execution.executionId), ExecutionStarted, Identity(request.execution))
                 && Holds(log, request.execution, SlotId(request, PreparedSlot), EffectPrepared, payload)
  {
    EvidenceExactlyWhen(log, request, StartedId(request.execution.executionId), ExecutionStarted, Identity(request.execution));
    EvidenceExactlyWhen(log, request, SlotId(request, PreparedSlot), EffectPrepared, payload);
  }

  /** Preparation and grant are saved for this request. */
  ghost predicate IsBoundFor(lib: Library, log: seq<Event>, request: ReconciliationRequest, b: Bound) {
    && lib.requestValid(request) && b.request.effectId == request.effectId
    && WellBound(lib, request.execution, b) && IsToolBound(b, log, request.execution)
  }

  lemma BoundIsRead(lib: Library, log: seq<Event>, request: ReconciliationRequest, b: Bound)
    requires WellFormed(log) && IsBoundFor(lib, log, request, b)
    ensures BoundOf(lib, log, request) == Some(b)
  {
    var prepared, authorized := ToolPrepared(b.request, b.prepared, b.scope), ToolGranted(b.authorization, b.grant);
    PreparedExactlyWhen(lib, log, request, prepared);
    EvidenceExactlyWhen(log, request, SlotId(request, AuthorizedSlot), EffectAuthorized, authorized);
    BoundExactlyWhen(lib, request.execution, request.effectId, prepared, authorized, b);
  }

  lemma ReadIsBound(lib: Library, log: seq<Event>, request: ReconciliationRequest, b: Bound)
    requires WellFormed(log) && BoundOf(lib, log, request) == Some(b)
    ensures IsBoundFor(lib, log, request, b)
  {
    var prepared, authorized := PreparedOf(lib, log, request), EvidenceAt(log, request, SlotId(request, AuthorizedSlot), EffectAuthorized);
    BoundExactlyWhen(lib, request.execution, request.effectId, prepared.value, authorized.value, b);
    PreparedExactlyWhen(lib, log, request, prepared.value);
    EvidenceExactlyWhen(log, request, SlotId(request, AuthorizedSlot), EffectAuthorized, authorized.value);
  }

  /** The evidence that is read is the evidence there is. */
  lemma ReadyExactlyWhen(lib: Library, log: seq<Event>, request: ReconciliationRequest, b: Bound)
    requires WellFormed(log)
    ensures StartedBound(lib, log, request) == Some(b) <==> IsReady(lib, log, request, b)
  {
    if IsBoundFor(lib, log, request, b) { BoundIsRead(lib, log, request, b); }
    if BoundOf(lib, log, request) == Some(b) { ReadIsBound(lib, log, request, b); }
    EvidenceExactlyWhen(log, request, SlotId(request, StartedSlot), EffectStarted, b.StartedPayload());
  }

  lemma ReceiptExactlyWhen(lib: Library, log: seq<Event>, request: ReconciliationRequest, b: Bound, output: ToolOutput)
    requires WellFormed(log) && b.request.effectId == request.effectId
    ensures IsToolReceived(lib, log, request.execution, b, Ok(output))
            <==> Find(log, ReceiptOf(request)).Some? && ReceiptOutput(lib, request, b, Find(log, ReceiptOf(request)).value) == Some(output)
  {
    var found := Find(log, ReceiptOf(request));
    if IsToolReceived(lib, log, request.execution, b, Ok(output)) {
      var proof :| IsToolReceipt(lib, log, request.execution, b, Ok(output), proof);
      ReceiptIsRead(lib, log, request, b, output, proof);
    }
    if found.Some? && ReceiptOutput(lib, request, b, found.value) == Some(output) {
      AcceptedExactlyWhen(lib, b, found.value.payload, Ok(output));
      EvidenceExactlyWhen(log, request, ReceiptOf(request), EffectReceipt, found.value.payload);
      assert IsToolReceipt(lib, log, request.execution, b, Ok(output), found.value.payload.proof);
    }
  }

  lemma ReceiptIsRead(lib: Library, log: seq<Event>, request: ReconciliationRequest, b: Bound, output: ToolOutput, proof: Option<Proof>)
    requires WellFormed(log) && b.request.effectId == request.effectId && Definitive(lib, b, Ok(output))
    requires IsToolReceipt(lib, log, request.execution, b, Ok(output), proof)
    ensures var found := Find(log, ReceiptOf(request));
            && found.Some? && found.value.payload == ToolReceiptOf(lib, b, Ok(output), proof)
            && ReceiptOutput(lib, request, b, found.value) == Some(output)
  {
    HoldsIsFound(log, request.execution, ReceiptOf(request), EffectReceipt, ToolReceiptOf(lib, b, Ok(output), proof));
    AcceptedExactlyWhen(lib, b, ToolReceiptOf(lib, b, Ok(output), proof), Ok(output));
  }

  // ------------------------------------------------------------------------ the steps

  /** The caller alone ends so. */
  ghost predicate EndsAs(lib: Library, log: seq<Event>, c: Caller, inspector: Inspector, e: Ending) {
    Alone(lib, log, c, inspector) == Stepped(e.log, Caller(c.request, Done(e.reply), e.inspected))
  }

  lemma {:induction false} SameRequest(lib: Library, log: seq<Event>, c: Caller, inspector: Inspector)
    ensures Alone(lib, log, c, inspector).caller.request == c.request
    decreases Rank(c.pc)
  {
    if !Finished(c) {
      var next := CallerStep(lib, log, c, inspector);
      StepDescends(lib, log, c, inspector);
      SameRequest(lib, next.log, next.caller, inspector);
    }
  }

  /** An end with this reply on this log. */
  lemma EndsSo(lib: Library, log: seq<Event>, request: ReconciliationRequest, inspector: Inspector, e: Ending)
    requires var end := Alone(lib, log, Fresh(request), inspector);
             end.log == e.log && end.caller.pc == Done(e.reply) && end.caller.inspected == e.inspected
    ensures EndsAs(lib, log, Fresh(request), inspector, e)
  {
    SameRequest(lib, log, Fresh(request), inspector);
  }

  /** The evidence is gathered, and receipt and decision lead on. */
  lemma EndsAsDirected(lib: Library, log: seq<Event>, request: ReconciliationRequest, inspector: Inspector, b: Bound, pc: Pc, e: Ending)
    requires WellFormed(log) && IsReady(lib, log, request, b) && Directed(lib, log, request, b) == pc
    requires EndsAs(lib, log, Fresh(request).(pc := pc), inspector, e)
    ensures EndsAs(lib, log, Fresh(request), inspector, e)
  {
    ReadyExactlyWhen(lib, log, request, b);
    AloneGathers(lib, log, request, inspector);
    AloneIsDirected(lib, log, Fresh(request).(pc := ReadReceipt(b)), inspector, b);
  }

  lemma EndsUnready(lib: Library, log: seq<Event>, request: ReconciliationRequest, inspector: Inspector)
    requires WellFormed(log) && forall b :: !IsReady(lib, log, request, b)
    ensures EndsAs(lib, log, Fresh(request), inspector, Ending(Err(Invalid), log, false))
  {
    var bound := StartedBound(lib, log, request);
    if bound.Some? { ReadyExactlyWhen(lib, log, request, bound.value); }
    AloneGathers(lib, log, request, inspector);
  }

  lemma EndsDecided(lib: Library, log: seq<Event>, c: Caller, inspector: Inspector, b: Bound, resolution: Resolution)
    requires c.pc == WriteDecision(b, resolution) && Free(log, DecisionOf(c.request))
    ensures EndsAs(lib, log, c, inspector, Ending(Ok(resolution), Decided(log, c.request, b, resolution), c.inspected))
  {
    AloneDecides(lib, log, c, inspector, b, resolution);
    FreeIsAppended(log, c.request.execution, DecisionOf(c.request), EffectReconciled, DecisionPayload(c.request, b, resolution));
  }

  lemma EndsReceived(lib: Library, log: seq<Event>, c: Caller, inspector: Inspector, b: Bound, resolution: Resolution)
    requires c.pc == WriteReceipt(b, resolution) && resolution.Committed? && lib.resultValid(b.grant, resolution.output)
    requires IsNew(log, c.request) && b.request.effectId == c.request.effectId
    ensures EndsAs(lib, log, c, inspector,
                   Ending(Ok(resolution), Decided(Received(lib, log, c.request, b, resolution), c.request, b, resolution), c.inspected))
  {
    var payload := ToolReceiptOf(lib, b, Ok(resolution.output), Some(Proof(c.request, resolution)));
    var received := Received(lib, log, c.request, b, resolution);
    assert ReceiptFact(lib, c.request, b, resolution) == FactAt(c.request.execution, ReceiptOf(c.request), 0, EffectReceipt, payload);
    AloneSaves(lib, log, c, inspector, b, resolution);
    FreeIsAppended(log, c.request.execution, ReceiptOf(c.request), EffectReceipt, payload);
    StaysFree(log, FactAt(c.request.execution, ReceiptOf(c.request), |log| + 1, EffectReceipt, payload), DecisionOf(c.request));
    EndsDecided(lib, received, c.(pc := WriteDecision(b, resolution)), inspector, b, resolution);
  }

  /** The inspector is asked. */
  lemma EndsInspected(lib: Library, log: seq<Event>, c: Caller, inspector: Inspector, b: Bound)
    requires c.pc == Inspect(b) && IsNew(log, c.request) && b.request.effectId == c.request.effectId
    ensures EndsAs(lib, log, c, inspector, Inspected(lib, log, c.request, b, inspector(c.request, b.request, b.authorization)))
  {
    var answer := inspector(c.request, b.request, b.authorization);
    var next := CallerStep(lib, log, c, inspector);
    AloneSteps(lib, log, c, inspector, next);
    if answer.Some? {
      AttestedExactlyWhen(lib, b, c.request, answer.value);
      if Attests(lib, b, c.request, answer.value) {
        if !answer.value.Committed? {
          EndsDecided(lib, log, next.caller, inspector, b, answer.value);
        } else if lib.resultValid(b.grant, answer.value.output) {
          EndsReceived(lib, log, next.caller, inspector, b, answer.value);
        }
      }
    }
  }

  // --------------------------------------------------------------------- where it leads

  lemma NewIsInspected(lib: Library, log: seq<Event>, request: ReconciliationRequest, b: Bound)
    requires IsNew(log, request)
    ensures Directed(lib, log, request, b) == Inspect(b)
  {
    FreeIsNotFound(log, ReceiptOf(request));
    FreeIsNotFound(log, DecisionOf(request));
  }

  lemma UndecidedIsAnswered(lib: Library, log: seq<Event>, request: ReconciliationRequest, b: Bound, output: ToolOutput, proof: Option<Proof>)
    requires WellFormed(log) && b.request.effectId == request.effectId && IsUndecided(lib, log, request, b, output, proof)
    ensures Directed(lib, log, request, b)
            == if proof.Some? && proof.value.request == request then WriteDecision(b, proof.value.resolution)
               else Done(ReceiptAnswered(lib, log, request, b, output, proof).reply)
  {
    ReceiptIsRead(lib, log, request, b, output, proof);
    FreeIsNotFound(log, DecisionOf(request));
  }

  /** The receipt a decision rests on is read. */
  lemma DecidedAgrees(lib: Library, log: seq<Event>, request: ReconciliationRequest, b: Bound, resolution: Resolution)
    requires WellFormed(log) && b.request.effectId == request.effectId && IsDecided(lib, log, request, b, resolution)
    ensures Agrees(lib, request, b, resolution, Find(log, ReceiptOf(request)))
  {
    if resolution.Committed? {
      ReceiptIsRead(lib, log, request, b, resolution.output, Some(Proof(request, resolution)));
    } else {
      AbsentIsNotFound(log, ReceiptOf(request));
    }
  }

  lemma DecisionIsRead(lib: Library, log: seq<Event>, request: ReconciliationRequest, b: Bound, resolution: Resolution)
    requires WellFormed(log) && b.request.effectId == request.effectId && IsDecided(lib, log, request, b, resolution)
    ensures Directed(lib, log, request, b) == Done(Ok(resolution))
  {
    var decision := Find(log, DecisionOf(request));
    HoldsIsFound(log, request.execution, DecisionOf(request), EffectReconciled, DecisionPayload(request, b, resolution));
    AttestedExactlyWhen(lib, b, request, resolution);
    DecidedAgrees(lib, log, request, b, resolution);
    AgreedDecisionIsAccepted(lib, request, b, resolution, Find(log, ReceiptOf(request)), decision.value);
  }

  lemma AcceptedIsDecided(lib: Library, log: seq<Event>, request: ReconciliationRequest, b: Bound, resolution: Resolution)
    requires WellFormed(log) && b.request.effectId == request.effectId && Find(log, DecisionOf(request)).Some?
    requires DecisionReply(lib, request, b, Find(log, ReceiptOf(request)), Find(log, DecisionOf(request)).value) == Ok(resolution)
    ensures IsDecided(lib, log, request, b, resolution)
  {
    EvidenceExactlyWhen(log, request, DecisionOf(request), EffectReconciled, DecisionPayload(request, b, resolution));
    AttestedExactlyWhen(lib, b, request, resolution);
    if resolution.Committed? {
      var receipt := Find(log, ReceiptOf(request)).value;
      AcceptedExactlyWhen(lib, b, receipt.payload, Ok(resolution.output));
      EvidenceExactlyWhen(log, request, ReceiptOf(request), EffectReceipt, receipt.payload);
    }
  }

  lemma MisreceivedIsRefused(lib: Library, log: seq<Event>, request: ReconciliationRequest, b: Bound)
    requires WellFormed(log) && b.request.effectId == request.effectId && !Absent(log, ReceiptOf(request))
    requires forall output :: !IsToolReceived(lib, log, request.execution, b, Ok(output))
    ensures AfterReceipt(lib, request, b, Find(log, ReceiptOf(request))) == Done(Err(Invalid))
  {
    var receipt := Find(log, ReceiptOf(request)).value;
    var output := ReceiptOutput(lib, request, b, receipt);
    if output.Some? { ReceiptExactlyWhen(lib, log, request, b, output.value); }
  }

  lemma MisdecidedIsRefused(lib: Library, log: seq<Event>, request: ReconciliationRequest, b: Bound)
    requires WellFormed(log) && b.request.effectId == request.effectId && !Absent(log, DecisionOf(request))
    requires forall resolution :: !IsDecided(lib, log, request, b, resolution)
    ensures AfterDecision(lib, request, b, Find(log, ReceiptOf(request)), Find(log, DecisionOf(request))) == Done(Err(Invalid))
  {
    var reply := DecisionReply(lib, request, b, Find(log, ReceiptOf(request)), Find(log, DecisionOf(request)).value);
    if reply.Ok? { AcceptedIsDecided(lib, log, request, b, reply.value); }
  }

  lemma MisfitIsRefused(lib: Library, log: seq<Event>, request: ReconciliationRequest, b: Bound)
    requires WellFormed(log) && b.request.effectId == request.effectId && IsMisfit(lib, log, request, b)
    ensures Directed(lib, log, request, b) == Done(Err(Invalid))
  {
    if !Absent(log, ReceiptOf(request)) && forall output :: !IsToolReceived(lib, log, request.execution, b, Ok(output)) {
      MisreceivedIsRefused(lib, log, request, b);
    } else {
      MisdecidedIsRefused(lib, log, request, b);
      RefusedEitherWay(lib, log, request, b);
    }
  }

  /** A receipt that is refused is refused with the same error. */
  lemma RefusedEitherWay(lib: Library, log: seq<Event>, request: ReconciliationRequest, b: Bound)
    requires AfterDecision(lib, request, b, Find(log, ReceiptOf(request)), Find(log, DecisionOf(request))) == Done(Err(Invalid))
    ensures Directed(lib, log, request, b) == Done(Err(Invalid))
  {
  }

  // ------------------------------------------------------------------ main result

  lemma EndsAnswered(lib: Library, log: seq<Event>, request: ReconciliationRequest, inspector: Inspector, b: Bound, e: Ending)
    requires WellFormed(log) && IsReady(lib, log, request, b) && EndsAs(lib, log, Fresh(request), inspector, e)
    ensures IsAnswered(lib, log, request, b, inspector, e)
  {
    if IsNew(log, request) {
      NewIsInspected(lib, log, request, b);
      EndsInspected(lib, log, Fresh(request).(pc := Inspect(b)), inspector, b);
      EndsAsDirected(lib, log, request, inspector, b, Inspect(b), Inspected(lib, log, request, b, inspector(request, b.request, b.authorization)));
    }
    if IsMisfit(lib, log, request, b) {
      MisfitIsRefused(lib, log, request, b);
      EndsAsDirected(lib, log, request, inspector, b, Done(Err(Invalid)), Ending(Err(Invalid), log, false));
    }
    forall resolution | IsDecided(lib, log, request, b, resolution) ensures e == Ending(Ok(resolution), log, false) {
      DecisionIsRead(lib, log, request, b, resolution);
      EndsAsDirected(lib, log, request, inspector, b, Done(Ok(resolution)), Ending(Ok(resolution), log, false));
    }
    forall output, proof | IsUndecided(lib, log, request, b, output, proof) ensures e == ReceiptAnswered(lib, log, request, b, output, proof) {
      EndsUndecided(lib, log, request, inspector, b, output, proof);
    }
  }

  lemma EndsUndecided(lib: Library, log: seq<Event>, request: ReconciliationRequest, inspector: Inspector, b: Bound,
                      output: ToolOutput, proof: Option<Proof>)
    requires WellFormed(log) && IsReady(lib, log, request, b) && IsUndecided(lib, log, request, b, output, proof)
    ensures EndsAs(lib, log, Fresh(request), inspector, ReceiptAnswered(lib, log, request, b, output, proof))
  {
    var pc := Directed(lib, log, request, b);
    UndecidedIsAnswered(lib, log, request, b, output, proof);
    if pc.WriteDecision? { EndsDecided(lib, log, Fresh(request).(pc := pc), inspector, b, proof.value.resolution); }
    EndsAsDirected(lib, log, request, inspector, b, pc, ReceiptAnswered(lib, log, request, b, output, proof));
  }

  /** A call alone comes to what is written above, whatever is saved. */
  lemma CallIsAsWritten(lib: Library, log: seq<Event>, request: ReconciliationRequest, inspector: Inspector, e: Ending)
    requires WellFormed(log) && EndsAs(lib, log, Fresh(request), inspector, e)
    ensures IsAsWritten(lib, log, request, inspector, e)
  {
    if forall b :: !IsReady(lib, log, request, b) { EndsUnready(lib, log, request, inspector); }
    forall b | IsReady(lib, log, request, b) ensures IsAnswered(lib, log, request, b, inspector, e) {
      EndsAnswered(lib, log, request, inspector, b, e);
    }
  }
}
