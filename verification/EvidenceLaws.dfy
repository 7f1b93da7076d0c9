/**
 What saved evidence amounts to, field by field: which events a log holds, which
 preparation and grant are bound, and which receipts are accepted.
 */
module EvidenceLaws {
  import opened Wrappers
  import opened LedgerTypes
  import opened Ledger
  import opened ToolEvidence

  // ------------------------------------------------------------------------- the log

  /** A fact under its own identity, at a cursor. */
  function FactAt(key: ExecutionKey, id: EventId, cursor: nat, kind: Kind, payload: Payload): Event {
    Event(id, key.turnId, key.executionId, cursor, kind, id, payload)
  }

  /** The log holds this fact of the execution. */
  ghost predicate Holds(log: seq<Event>, key: ExecutionKey, id: EventId, kind: Kind, payload: Payload) {
    exists i :: 0 <= i < |log| && log[i] == FactAt(key, id, i + 1, kind, payload)
  }

  /** No event has this identity or key. */
  ghost predicate Free(log: seq<Event>, id: EventId) {
    forall i :: 0 <= i < |log| ==> log[i].eventId != id && log[i].idempotencyKey != id
  }

  lemma HoldsIsFound(log: seq<Event>, key: ExecutionKey, id: EventId, kind: Kind, payload: Payload)
    requires WellFormed(log) && Holds(log, key, id, kind, payload)
    ensures var found := Find(log, id);
            found.Some? && IsEvidence(found.value, key, id, kind) && found.value.payload == payload
  {
    var i :| 0 <= i < |log| && log[i] == FactAt(key, id, i + 1, kind, payload);
    var found := Find(log, id);
    assert log[i].eventId == id;
    var j :| 0 <= j < |log| && log[j] == found.value && log[j].eventId == id;
  }

  /** No event has this identity. */
  ghost predicate Absent(log: seq<Event>, id: EventId) {
    forall i :: 0 <= i < |log| ==> log[i].eventId != id
  }

  lemma AbsentIsNotFound(log: seq<Event>, id: EventId)
    requires Absent(log, id)
    ensures Find(log, id).None?
  {
  }

  lemma FreeIsNotFound(log: seq<Event>, id: EventId)
    requires Free(log, id)
    ensures Find(log, id).None?
  {
  }

  /** A fact whose identity is free is appended, and leaves other identities free. */
  lemma FreeIsAppended(log: seq<Event>, key: ExecutionKey, id: EventId, kind: Kind, payload: Payload)
    requires Free(log, id)
    ensures Appended(log, FactAt(key, id, 0, kind, payload), false) == Ok(log + [FactAt(key, id, |log| + 1, kind, payload)])
  {
  }

  lemma StaysFree(log: seq<Event>, event: Event, id: EventId)
    requires Free(log, id) && event.eventId != id && event.idempotencyKey != id
    ensures Free(log + [event], id)
  {
  }

  // --------------------------------------------------------------------- the binding

  /** The grant is for exactly this prepared call in exactly this scope. */
  predicate GrantFits(lib: Library, prepared: PreparedCall, grant: PreparedGrant, scope: ToolScope) {
    && grant.scope == scope && grant.callId == prepared.callId && grant.toolName == prepared.toolName
    && grant.toolRevision == prepared.toolRevision && grant.preparedDigest == prepared.digest
    && lib.scopeValid(scope) && lib.preparedValid(prepared) && lib.withinLimits(grant, prepared)
  }

  /** Request and authorization are derived from the call, its scope and its grant. */
  predicate WellBound(lib: Library, execution: ExecutionKey, b: Bound) {
    && GrantFits(lib, b.prepared, b.grant, b.scope)
    && b.scope.execution == execution && b.grant.policyRevision == b.request.policyRevision
    && b.request.effectId == lib.effectName(b.scope.stepId, b.prepared.callId)
    && b.request.operationKind == b.prepared.toolName
    && b.request.inputDigest == lib.inputDigest(b.prepared.digest, b.scope)
    && b.request.requirements == [lib.requirements(b.prepared)]
    && b.authorization.authorizationId == lib.authorizationName(execution.executionId, b.request.effectId)
    && b.authorization.effectId == b.request.effectId && b.authorization.inputDigest == b.request.inputDigest
    && b.authorization.constraintsDigest == lib.grantDigest(b.grant)
    && b.authorization.authorityRevision == b.request.policyRevision
  }

  /** Two saved payloads are evidence of a binding exactly when it is well bound and they are what it writes. */
  lemma BoundExactlyWhen(lib: Library, execution: ExecutionKey, effectId: string, prepared: Payload, authorized: Payload, b: Bound)
    ensures FromFacts(lib, execution, effectId, prepared, authorized) == Some(b)
            <==> && WellBound(lib, execution, b) && b.request.effectId == effectId
                 && prepared == ToolPrepared(b.request, b.prepared, b.scope)
                 && authorized == ToolGranted(b.authorization, b.grant)
  {
    if prepared.ToolPrepared? && authorized.ToolGranted? {
      var made := Bind(lib, prepared.prepared, authorized.preparedGrant, prepared.scope, prepared.request.policyRevision, execution);
      if WellBound(lib, execution, b) && prepared == ToolPrepared(b.request, b.prepared, b.scope)
         && authorized == ToolGranted(b.authorization, b.grant) {
        assert made.Some? && made.value.request == b.request;
        assert made.value.authorization == b.authorization;
      }
    }
  }

  // -------------------------------------------------------------------- the receipts

  /** The receipt a bound call's result is saved as. */
  function ToolReceiptOf(lib: Library, b: Bound, result: Result<ToolOutput, string>, proof: Option<Proof>): Payload {
    ToolReceipt(
      b.request.effectId, b.prepared, b.scope, b.authorization, b.grant,
      Receipt(
        lib.receiptName(b.scope.execution.executionId, b.request.effectId), b.request.effectId,
        b.authorization.authorizationId, b.request.inputDigest, lib.executorName(b.prepared.toolName),
        b.prepared.toolRevision, lib.resultDigest(result), if result.Ok? then ReceiptCompleted else ReceiptFailed),
      result, proof)
  }

  /** A result that may be saved: an admissible output or a definitive error. */
  predicate Definitive(lib: Library, b: Bound, result: Result<ToolOutput, string>) {
    match result
    case Ok(output) => lib.resultValid(b.grant, output)
    case Err(error) => lib.definitiveError(error)
  }

  /** The attestation is about this effect of this execution, and a committed output is this call's by this executor. */
  predicate Attests(lib: Library, b: Bound, request: ReconciliationRequest, resolution: Resolution) {
    && request.execution == b.scope.execution && request.effectId == b.request.effectId
    && lib.reconciliationIdValid(request.reconciliationId) && lib.evidenceValid(resolution.evidence)
    && match resolution
       case Committed(output, executorId, executorRevision, _) =>
         && output.callId == b.prepared.callId && executorId == lib.executorName(b.prepared.toolName)
         && executorRevision == b.prepared.toolRevision
       case _ => true
  }

  lemma AttestedExactlyWhen(lib: Library, b: Bound, request: ReconciliationRequest, resolution: Resolution)
    ensures b.ResolutionValid(lib, Proof(request, resolution)) <==> Attests(lib, b, request, resolution)
  {
  }

  /** A receipt is accepted exactly when it is the one of a definitive result, with no proof or one that attests it. */
  lemma AcceptedExactlyWhen(lib: Library, b: Bound, payload: Payload, result: Result<ToolOutput, string>)
    ensures b.ValidatedReceipt(lib, payload) == Some(result)
            <==> && payload.ToolReceipt? && payload == ToolReceiptOf(lib, b, result, payload.proof) && Definitive(lib, b, result)
                 && (payload.proof.Some? ==>
                       && Attests(lib, b, payload.proof.value.request, payload.proof.value.resolution)
                       && payload.proof.value.resolution.Committed? && result == Ok(payload.proof.value.resolution.output))
  {
    if payload.ToolReceipt? {
      if payload.proof.Some? { AttestedExactlyWhen(lib, b, payload.proof.value.request, payload.proof.value.resolution); }
      if payload.result == result && Definitive(lib, b, result) {
        assert b.ReceiptPayload(lib, result) == Some(ToolReceiptOf(lib, b, result, None));
      }
    }
  }

  // ------------------------------------------------------------- a tool effect in the log

  /** The execution, its preparation of this tool call and its grant are saved. */
  ghost predicate IsToolBound(b: Bound, log: seq<Event>, key: ExecutionKey) {
    && Holds(log, key, StartedId(key.executionId), ExecutionStarted, Identity(key))
    && Holds(log, key, EffectId(key.executionId, b.request.effectId, PreparedSlot), EffectPrepared, ToolPrepared(b.request, b.prepared, b.scope))
    && Holds(log, key, EffectId(key.executionId, b.request.effectId, AuthorizedSlot), EffectAuthorized, ToolGranted(b.authorization, b.grant))
  }

  ghost predicate IsToolStarted(log: seq<Event>, key: ExecutionKey, b: Bound) {
    Holds(log, key, EffectId(key.executionId, b.request.effectId, StartedSlot), EffectStarted,
          ToolStarted(b.request.effectId, b.request.inputDigest, b.scope))
  }

  /** The receipt of this result is saved, with or without the proof of a reconciliation. */
  ghost predicate IsToolReceived(lib: Library, log: seq<Event>, key: ExecutionKey, b: Bound, result: Result<ToolOutput, string>) {
    Definitive(lib, b, result) && exists proof :: IsToolReceipt(lib, log, key, b, result, proof)
  }

  /** This receipt is saved, and a proof it carries attests its result. */
  ghost predicate IsToolReceipt(lib: Library, log: seq<Event>, key: ExecutionKey, b: Bound, result: Result<ToolOutput, string>, proof: Option<Proof>) {
    && Holds(log, key, EffectId(key.executionId, b.request.effectId, ReceiptSlot), EffectReceipt, ToolReceiptOf(lib, b, result, proof))
    && (proof.Some? ==>
          && Attests(lib, b, proof.value.request, proof.value.resolution)
          && proof.value.resolution.Committed? && result == Ok(proof.value.resolution.output))
  }
}
