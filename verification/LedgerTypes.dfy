/**
 The vocabulary of the durable execution ledger.

 The program builds event identities by formatting strings such as
 `{execution}/effect/{effect}/started`. Here an identity is a structured value,
 so two identities are equal exactly when their coordinates are.
 */
module LedgerTypes {
  import opened Wrappers

  datatype ExecutionKey = ExecutionKey(sessionId: string, turnId: string, executionId: string)

  datatype Slot =
    | PreparedSlot
    | AuthorizedSlot
    | StartedSlot
    | ReceiptSlot
    | DeniedSlot
    | AwaitingSlot
    | CompletedSlot
    | FailedSlot
    | UncertainSlot

  datatype EventId =
    | StartedId(execution: string)
    | CancelledId(execution: string)
    | EffectId(execution: string, effect: string, slot: Slot)
    | SuspensionId(execution: string, effect: string)
    | ReconciliationId(execution: string, effect: string, reconciliation: string)
    | ReadmissionId(execution: string, recovery: bool, cursor: nat)
    | OtherId(name: string)

  datatype Kind =
    | TurnStarted | StepStarted | ModelRequested | ModelOpeningAdmitted | ModelStreamEvent
    | StepCompleted | ToolCallRequested | ApprovalRequested | ApprovalResolved
    | ToolExecutionStarted | ToolExecutionCompleted | ToolExecutionFailed
    | TurnFailed | TurnCancelled | TurnTimedOut | TurnCompleted
    | ExecutionStarted | ExecutionBound | ExecutionInputAdmitted | ExecutionRetryAuthorized
    | ExecutionBoundaryAdmitted | ExecutionSuspended | ExecutionCancelled
    | EffectPrepared | EffectAuthorized | EffectAwaitingDecision | EffectAwaitingExternal
    | ToolAwaitingExternal | TurnCheckpointMerged | TurnCheckpointPrepared
    | EffectStarted | EffectCompleted | EffectFailed | EffectUncertain | EffectDenied
    | EffectReceipt | EffectReconciled | SessionCommitPrepared | SessionCommitted

  datatype EffectRequest = EffectRequest(
    effectId: string,
    operationKind: string,
    inputDigest: string,
    requirements: seq<string>,
    policyRevision: string)

  datatype EffectGrant = EffectGrant(
    authorizationId: string,
    effectId: string,
    inputDigest: string,
    constraintsDigest: string,
    authorityRevision: string)

  datatype ReceiptStatus = ReceiptCompleted | ReceiptFailed | ReceiptUncertain

  datatype Receipt = Receipt(
    receiptId: string,
    effectId: string,
    authorizationId: string,
    inputDigest: string,
    executorId: string,
    executorRevision: string,
    resultDigest: string,
    status: ReceiptStatus)

  // Prepared tool evidence: preparation, scope and grant of one tool invocation.
  datatype ToolScope = ToolScope(execution: ExecutionKey, stepId: string, snapshot: Option<string>)

  datatype PreparedCall = PreparedCall(
    callId: string, toolName: string, toolRevision: string, semantics: string, digest: string)

  datatype PreparedGrant = PreparedGrant(
    scope: ToolScope, callId: string, toolName: string, toolRevision: string,
    preparedDigest: string, policyRevision: string, constraints: string, approval: Option<string>)

  datatype ToolOutput = ToolOutput(callId: string, content: string)

  datatype Json = Null | Raw(text: string) | ToolJson(tool: ToolOutput)

  /** The member that accompanies a receipt: `output`, `code` or `evidence`. */
  datatype Detail = Output(output: Json) | Code(code: string) | Evidence(evidence: string)

  datatype ReconciliationRequest = ReconciliationRequest(
    reconciliationId: string, execution: ExecutionKey, effectId: string)

  datatype Resolution =
    | Committed(output: ToolOutput, executorId: string, executorRevision: string, evidence: string)
    | NotCommitted(evidence: string)
    | Unknown(evidence: string)

  datatype Proof = Proof(request: ReconciliationRequest, resolution: Resolution)

  datatype Payload =
    | NoPayload
    | Identity(key: ExecutionKey)
    | GenericPrepared(request: EffectRequest)
    | Granted(grant: EffectGrant)
    | StartedEffect(effectId: string)
    | Outcome(receipt: Receipt, detail: Detail)
    | Projection(effectId: string, detail: Detail)
    | DeniedEffect(effectId: string, code: string)
    | AwaitingEffect(effectId: string, interactionId: string)
    | SuspendedEffect(effectId: string)
    | ToolPrepared(request: EffectRequest, prepared: PreparedCall, scope: ToolScope)
    | ToolGranted(authorization: EffectGrant, preparedGrant: PreparedGrant)
    | ToolStarted(effectId: string, inputDigest: string, scope: ToolScope)
    | ToolReceipt(
        effectId: string, prepared: PreparedCall, scope: ToolScope,
        authorization: EffectGrant, preparedGrant: PreparedGrant,
        receipt: Receipt, result: Result<ToolOutput, string>, proof: Option<Proof>)
    | Decision(
        decided: Proof, inputDigest: string, authorizationDigest: string, scope: ToolScope)
    | ToolUncertain(effectId: string, inputDigest: string, scope: ToolScope, evidence: string)
    | OtherPayload(text: string)

  datatype Event = Event(
    eventId: EventId,
    turnId: string,
    executionId: string,
    cursor: nat,
    kind: Kind,
    idempotencyKey: EventId,
    payload: Payload)

  datatype LedgerError = InvalidQuery | Conflict(id: EventId) | CancelledExecution(execution: string) | Storage

  /** The saved event states the same fact; its cursor and idempotency key are not compared. */
  predicate SameFact(existing: Event, fact: Event) {
    && existing.turnId == fact.turnId
    && existing.executionId == fact.executionId
    && existing.kind == fact.kind
    && existing.payload == fact.payload
  }
}
