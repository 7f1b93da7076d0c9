/**
 `reconcile_tool_effect` as the program writes it, proved to do what a single
 caller's steps do when nobody else runs.
 */
module ReconciliationRuntime {
  import opened Wrappers
  import opened LedgerTypes
  import opened Ledger
  import opened ToolEvidence
  import opened Reconciliation
  import opened ReconciliationAlone
  import opened ReconciliationOutcomes

  class ToolReconciler {
    const ledger: InMemoryLedger
    const lib: Library
    const inspector: Inspector

    constructor (ledger: InMemoryLedger, lib: Library, inspector: Inspector)
      ensures this.ledger == ledger && this.lib == lib && this.inspector == inspector
    {
      this.ledger, this.lib, this.inspector := ledger, lib, inspector;
    }

    /** From here, caller `c` alone ends with this reply on this log. */
    ghost predicate Ends(log: seq<Event>, c: Caller, reply: Reply, final: seq<Event>) {
      var end := Alone(lib, log, c, inspector);
      end.log == final && end.caller.pc == Done(reply)
    }

    method Lookup(id: EventId) returns (r: Option<Event>)
      requires ledger.Valid() && id != OtherId("")
      ensures r == Find(ledger.events, id)
    {
      var answer := ledger.EventById(id);
      r := answer.value;
    }

    method Required(request: ReconciliationRequest, id: EventId, kind: Kind) returns (r: Option<Payload>)
      requires ledger.Valid() && id != OtherId("")
      ensures r == EvidenceAt(ledger.events, request, id, kind)
    {
      var event := Lookup(id);
      if event.None? || !IsEvidence(event.value, request.execution, id, kind) {
        return None;
      }
      return Some(event.value.payload);
    }

    /** Append a fact, or accept the saved one if it is the same but for its cursor. */
    method AppendIdentical(fact: Event) returns (r: Result<(), ReconcileError>)
      requires ledger.Valid() && fact.eventId != OtherId("")
      modifies ledger
      ensures ledger.Valid()
      ensures match Appended(old(ledger.events), fact, false)
              case Ok(log) => r == Ok(()) && ledger.events == log
              case Err(Conflict(_)) =>
                ledger.events == old(ledger.events)
                && r == if IsIdentical(Find(ledger.events, fact.eventId), fact) then Ok(()) else Err(Invalid)
              case Err(error) => ledger.events == old(ledger.events) && r == Err(LedgerFailure(error))
    {
      var appended := ledger.Append(fact);
      if appended.Ok? {
        return Ok(());
      }
      if !appended.error.Conflict? {
        return Err(LedgerFailure(appended.error));
      }
      var actual := Lookup(fact.eventId);
      return if IsIdentical(actual, fact) then Ok(()) else Err(Invalid);
    }

    /** The preparation of an identified execution's effect. */
    method GatherPrepared(request: ReconciliationRequest) returns (r: Option<Payload>)
      requires ledger.Valid()
      ensures r == PreparedOf(lib, ledger.events, request)
    {
      if !lib.requestValid(request) {
        return None;
      }
      var identity := Required(request, StartedId(request.execution.executionId), ExecutionStarted);
      if identity != Some(Identity(request.execution)) {
        return None;
      }
      r := Required(request, SlotId(request, PreparedSlot), EffectPrepared);
    }

    /** Its preparation bound to its grant. */
    method GatherBound(request: ReconciliationRequest) returns (r: Option<Bound>)
      requires ledger.Valid()
      ensures r == BoundOf(lib, ledger.events, request)
    {
      var prepared := GatherPrepared(request);
      var authorized := Required(request, SlotId(request, AuthorizedSlot), EffectAuthorized);
      if prepared.None? || authorized.None? {
        return None;
      }
      r := FromFacts(lib, request.execution, request.effectId, prepared.value, authorized.value);
    }

    /** The evidence of the started effect. */
    method Gather(request: ReconciliationRequest) returns (r: Option<Bound>)
      requires ledger.Valid()
      ensures r == StartedBound(lib, ledger.events, request)
    {
      r := GatherBound(request);
      if r.None? {
        return;
      }
      var started := Required(request, SlotId(request, StartedSlot), EffectStarted);
      if started != Some(r.value.StartedPayload()) {
        return None;
      }
    }

    /** Write a decision and answer with its resolution. */
    method Decide(ghost c: Caller, request: ReconciliationRequest, bound: Bound, resolution: Resolution) returns (r: Reply)
      requires ledger.Valid() && c.request == request && c.pc == WriteDecision(bound, resolution)
      modifies ledger
      ensures ledger.Valid() && Ends(old(ledger.events), c, r, ledger.events)
    {
      AloneDecides(lib, ledger.events, c, inspector, bound, resolution);
      var appended := AppendIdentical(DecisionFact(request, bound, resolution));
      return if appended.Ok? then Ok(resolution) else Err(appended.error);
    }

    /** Ask the inspector and save what it attests. */
    method Attest(ghost c: Caller, request: ReconciliationRequest, bound: Bound) returns (r: Reply)
      requires ledger.Valid() && c.request == request && c.pc == Inspect(bound)
      modifies ledger
      ensures ledger.Valid() && Ends(old(ledger.events), c, r, ledger.events)
    {
      ghost var log := ledger.events;
      AloneSteps(lib, log, c, inspector, CallerStep(lib, log, c, inspector));
      var answer := inspector(request, bound.request, bound.authorization);
      if answer.None? {
        return Err(InspectorFailure);
      }
      var resolution := answer.value;
      if !bound.ResolutionValid(lib, Proof(request, resolution)) {
        return Err(Invalid);
      }
      ghost var c1 := c.(inspected := true);
      if resolution.Committed? {
        if ProvenReceipt(lib, request, bound, resolution).None? {
          return Err(Invalid);
        }
        r := SaveReceipt(c1.(pc := WriteReceipt(bound, resolution)), request, bound, resolution);
      } else {
        r := Decide(c1.(pc := WriteDecision(bound, resolution)), request, bound, resolution);
      }
    }

    /** Save the receipt with its proof, then the decision. */
    method SaveReceipt(ghost c: Caller, request: ReconciliationRequest, bound: Bound, resolution: Resolution) returns (r: Reply)
      requires ledger.Valid() && c.request == request && c.pc == WriteReceipt(bound, resolution)
      modifies ledger
      ensures ledger.Valid() && Ends(old(ledger.events), c, r, ledger.events)
    {
      AloneSaves(lib, ledger.events, c, inspector, bound, resolution);
      var appended := AppendIdentical(ReceiptFact(lib, request, bound, resolution));
      if appended.Err? {
        return Err(appended.error);
      }
      r := Decide(c.(pc := WriteDecision(bound, resolution)), request, bound, resolution);
    }

    /**
     Reconcile one uncertain tool effect. The reply and the ledger it leaves are where a
     fresh caller's steps lead when nobody else writes; and they are, event by event, what
     the saved evidence and the inspector's attestation come to.
     */
    method ReconcileToolEffect(request: ReconciliationRequest) returns (r: Reply)
      requires ledger.Valid()
      modifies ledger
      ensures ledger.Valid() && Ends(old(ledger.events), Fresh(request), r, ledger.events)
      ensures IsAsWritten(lib, old(ledger.events), request, inspector, Ending(r, ledger.events, Inspects(old(ledger.events), request)))
    {
      r := Reconcile(request);
      ghost var e := Ending(r, ledger.events, Inspects(old(ledger.events), request));
      EndsSo(lib, old(ledger.events), request, inspector, e);
      CallIsAsWritten(lib, old(ledger.events), request, inspector, e);
    }

    /** Whether the call asks the inspector. */
    ghost function Inspects(log: seq<Event>, request: ReconciliationRequest): bool {
      Alone(lib, log, Fresh(request), inspector).caller.inspected
    }

    method Reconcile(request: ReconciliationRequest) returns (r: Reply)
      requires ledger.Valid()
      modifies ledger
      ensures ledger.Valid() && Ends(old(ledger.events), Fresh(request), r, ledger.events)
    {
      AloneGathers(lib, ledger.events, request, inspector);
      var gathered := Gather(request);
      if gathered.None? {
        return Err(Invalid);
      }
      r := Examine(Fresh(request).(pc := ReadReceipt(gathered.value)), request, gathered.value);
    }

    /** Check the saved receipt, if there is one. */
    method Examine(ghost c: Caller, request: ReconciliationRequest, bound: Bound) returns (r: Reply)
      requires ledger.Valid() && c.request == request && c.pc == ReadReceipt(bound)
      modifies ledger
      ensures ledger.Valid() && Ends(old(ledger.events), c, r, ledger.events)
    {
      AloneReads(lib, ledger.events, c, inspector, AfterReceipt(lib, request, bound, Find(ledger.events, SlotId(request, ReceiptSlot))));
      var receipt := Lookup(SlotId(request, ReceiptSlot));
      if receipt.Some? && ReceiptOutput(lib, request, bound, receipt.value).None? {
        return Err(Invalid);
      }
      r := Resolve(c.(pc := ReadDecision(bound, receipt)), request, bound, receipt);
    }

    /** Answer from a saved decision or receipt, or else from the inspector. */
    method Resolve(ghost c: Caller, request: ReconciliationRequest, bound: Bound, receipt: Option<Event>) returns (r: Reply)
      requires ledger.Valid() && c.request == request && c.pc == ReadDecision(bound, receipt)
      requires receipt.Some? ==> ReceiptOutput(lib, request, bound, receipt.value).Some?
      modifies ledger
      ensures ledger.Valid() && Ends(old(ledger.events), c, r, ledger.events)
    {
      AloneReads(lib, ledger.events, c, inspector, AfterDecision(lib, request, bound, receipt, Find(ledger.events, DecisionId(request))));
      var decision := Lookup(DecisionId(request));
      if decision.Some? {
        return DecisionReply(lib, request, bound, receipt, decision.value);
      }
      if receipt.Some? {
        var proof := receipt.value.payload.proof;
        if proof.Some? && proof.value.request == request {
          r := Decide(c.(pc := WriteDecision(bound, proof.value.resolution)), request, bound, proof.value.resolution);
          return;
        }
        return Ok(Observed(lib, request, bound, ReceiptOutput(lib, request, bound, receipt.value).value));
      }
      r := Attest(c.(pc := Inspect(bound)), request, bound);
    }
  }
}
