/**
 Evidence of one prepared tool invocation, as saved in the ledger.

 Digests, the formatting of names, identity syntax and content limits are
 supplied by a `Library`; every statement about evidence holds for every library.
 */
module ToolEvidence {
  import opened Wrappers
  import opened LedgerTypes

  datatype Library = Library(
    executorName: string -> string,
    effectName: (string, string) -> string,
    authorizationName: (string, string) -> string,
    receiptName: (string, string) -> string,
    receiptNote: (string, string) -> string,
    inputDigest: (string, ToolScope) -> string,
    grantDigest: PreparedGrant -> string,
    resultDigest: Result<ToolOutput, string> -> string,
    requirements: PreparedCall -> string,
    preparedValid: PreparedCall -> bool,
    scopeValid: ToolScope -> bool,
    withinLimits: (PreparedGrant, PreparedCall) -> bool,
    resultValid: (PreparedGrant, ToolOutput) -> bool,
    definitiveError: string -> bool,
    reconciliationIdValid: string -> bool,
    evidenceValid: string -> bool,
    requestValid: ReconciliationRequest -> bool)

  /** What a saved event must agree on to be used as evidence. */
  predicate IsEvidence(event: Event, key: ExecutionKey, id: EventId, kind: Kind) {
    && event.eventId == id
    && event.executionId == key.executionId
    && event.turnId == key.turnId
    && event.kind == kind
    && event.idempotencyKey == id
  }

  datatype Bound = Bound(
    request: EffectRequest,
    authorization: EffectGrant,
    prepared: PreparedCall,
    scope: ToolScope,
    grant: PreparedGrant)
  {
    function PreparedPayload(): Payload {
      ToolPrepared(request, prepared, scope)
    }

    function AuthorizedPayload(): Payload {
      ToolGranted(authorization, grant)
    }

    function StartedPayload(): Payload {
      ToolStarted(request.effectId, request.inputDigest, scope)
    }

    function ExecutorId(lib: Library): string {
      lib.executorName(prepared.toolName)
    }

    /** The receipt of a definitive result; none for an invalid or uncertain one. */
    function ReceiptPayload(lib: Library, result: Result<ToolOutput, string>): Option<Payload> {
      if (if result.Ok? then lib.resultValid(grant, result.value) else lib.definitiveError(result.error)) then
        Some(ToolReceipt(
          request.effectId, prepared, scope, authorization, grant,
          Receipt(
            lib.receiptName(scope.execution.executionId, request.effectId),
            request.effectId, authorization.authorizationId, request.inputDigest,
            ExecutorId(lib), prepared.toolRevision, lib.resultDigest(result),
            if result.Ok? then ReceiptCompleted else ReceiptFailed),
          result, None))
      else None
    }

    predicate ResolutionValid(lib: Library, proof: Proof) {
      && proof.request.execution == scope.execution
      && proof.request.effectId == request.effectId
      && lib.reconciliationIdValid(proof.request.reconciliationId)
      && (proof.resolution.Committed? ==>
            && proof.resolution.output.callId == prepared.callId
            && proof.resolution.executorId == ExecutorId(lib)
            && proof.resolution.executorRevision == prepared.toolRevision)
      && lib.evidenceValid(proof.resolution.evidence)
    }

    /** The saved result of a receipt that binds exactly this preparation. */
    function ValidatedReceipt(lib: Library, payload: Payload): Option<Result<ToolOutput, string>> {
      if !payload.ToolReceipt? then None
      else
        var expected := ReceiptPayload(lib, payload.result);
        if expected.None? then None
        else if payload.proof.None? then
          if payload == expected.value then Some(payload.result) else None
        else
          var proof := payload.proof.value;
          if ResolutionValid(lib, proof) && proof.resolution.Committed?
             && payload.result == Ok(proof.resolution.output)
             && payload == expected.value.(proof := Some(proof))
          then Some(payload.result) else None
    }
  }

  /** Bind a preparation to a grant for one execution, or refuse. */
  function Bind(lib: Library, prepared: PreparedCall, grant: PreparedGrant, scope: ToolScope,
                policyRevision: string, execution: ExecutionKey): Option<Bound> {
    if lib.scopeValid(scope) && scope.execution == execution
       && lib.preparedValid(prepared) && lib.scopeValid(grant.scope)
       && grant.scope == scope && grant.callId == prepared.callId
       && grant.toolName == prepared.toolName && grant.toolRevision == prepared.toolRevision
       && grant.preparedDigest == prepared.digest && grant.policyRevision == policyRevision
       && lib.withinLimits(grant, prepared)
    then
      var effectId := lib.effectName(scope.stepId, prepared.callId);
      var input := lib.inputDigest(prepared.digest, scope);
      Some(Bound(
        EffectRequest(effectId, prepared.toolName, input, [lib.requirements(prepared)], policyRevision),
        EffectGrant(
          lib.authorizationName(execution.executionId, effectId),
          effectId, input, lib.grantDigest(grant), policyRevision),
        prepared, scope, grant))
    else None
  }

  /** Rebuild the binding from saved payloads; anything that differs from what it would write is refused. */
  function FromFacts(lib: Library, execution: ExecutionKey, effectId: string,
                     prepared: Payload, authorized: Payload): (r: Option<Bound>)
    ensures r.Some? ==>
              && r.value.PreparedPayload() == prepared && r.value.AuthorizedPayload() == authorized
              && r.value.scope.execution == execution && r.value.request.effectId == effectId
  {
    if !prepared.ToolPrepared? || !authorized.ToolGranted? then None
    else
      var bound := Bind(lib, prepared.prepared, authorized.preparedGrant, prepared.scope,
                        prepared.request.policyRevision, execution);
      if bound.Some? && bound.value.request.effectId == effectId
         && bound.value.PreparedPayload() == prepared && bound.value.AuthorizedPayload() == authorized
      then bound else None
  }
}
