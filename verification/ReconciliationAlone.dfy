/**
 One caller of `reconcile_tool_effect` with nobody else writing: where its steps lead,
 and what making the call again does.
 */
module ReconciliationAlone {
  import opened Wrappers
  import opened LedgerTypes
  import opened Ledger
  import opened ToolEvidence
  import opened Reconciliation

  function Rank(pc: Pc): nat {
    match pc
    case Begin => 20
    case ReadPrepared => 19
    case ReadAuthorized(_) => 18
    case ReadStarted(_) => 17
    case ReadReceipt(_) => 16
    case ReadDecision(_, _) => 15
    case Inspect(_) => 14
    case WriteReceipt(_, _) => 13
    case CheckReceipt(_, _) => 12
    case WriteDecision(_, _) => 11
    case CheckDecision(_, _) => 10
    case Done(_) => 0
    case Crashed => 0
  }

  ghost predicate Finished(c: Caller) {
    c.pc.Done? || c.pc.Crashed?
  }

  lemma ReadDescends(lib: Library, log: seq<Event>, c: Caller)
    requires !Finished(c) && !c.pc.Inspect? && !c.pc.WriteReceipt? && !c.pc.WriteDecision?
    ensures Rank(ReadStep(lib, log, c)) < Rank(c.pc)
  {
  }

  /** Every step brings a caller nearer its reply. */
  lemma StepDescends(lib: Library, log: seq<Event>, c: Caller, inspector: Inspector)
    requires !Finished(c)
    ensures Rank(CallerStep(lib, log, c, inspector).caller.pc) < Rank(c.pc)
  {
    if !c.pc.Inspect? && !c.pc.WriteReceipt? && !c.pc.WriteDecision? { ReadDescends(lib, log, c); }
  }

  /** A caller's steps to the end, with nobody else writing. */
  ghost function Alone(lib: Library, log: seq<Event>, c: Caller, inspector: Inspector): Stepped
    decreases Rank(c.pc)
  {
    if Finished(c) then Stepped(log, c)
    else
      StepDescends(lib, log, c, inspector);
      var next := CallerStep(lib, log, c, inspector);
      Alone(lib, next.log, next.caller, inspector)
  }

  /** One step into a run alone. */
  lemma AloneSteps(lib: Library, log: seq<Event>, c: Caller, inspector: Inspector, next: Stepped)
    requires !Finished(c) && CallerStep(lib, log, c, inspector) == next
    ensures Alone(lib, log, c, inspector) == Alone(lib, next.log, next.caller, inspector)
    ensures Finished(next.caller) ==> Alone(lib, log, c, inspector) == next
  {
  }

  /** A step that writes nothing. */
  lemma AloneReads(lib: Library, log: seq<Event>, c: Caller, inspector: Inspector, pc: Pc)
    requires !Finished(c) && !c.pc.Inspect? && !c.pc.WriteReceipt? && !c.pc.WriteDecision?
    requires ReadStep(lib, log, c) == pc
    ensures Alone(lib, log, c, inspector) == Alone(lib, log, c.(pc := pc), inspector)
    ensures Finished(c.(pc := pc)) ==> Alone(lib, log, c, inspector) == Stepped(log, c.(pc := pc))
  {
    AloneSteps(lib, log, c, inspector, Stepped(log, c.(pc := pc)));
  }

  lemma AloneIdentifies(lib: Library, log: seq<Event>, request: ReconciliationRequest, inspector: Inspector)
    ensures var prepared, c := PreparedOf(lib, log, request), Fresh(request);
            Alone(lib, log, c, inspector)
            == if prepared.None? then Stepped(log, c.(pc := Done(Err(Invalid))))
               else Alone(lib, log, c.(pc := ReadAuthorized(prepared.value)), inspector)
  {
    var c, c1 := Fresh(request), Fresh(request).(pc := ReadPrepared);
    AloneReads(lib, log, c, inspector, ReadStep(lib, log, c));
    AloneReads(lib, log, c1, inspector, ReadStep(lib, log, c1));
  }

  lemma AloneBinds(lib: Library, log: seq<Event>, c: Caller, inspector: Inspector)
    requires PreparedOf(lib, log, c.request).Some? && c.pc == ReadAuthorized(PreparedOf(lib, log, c.request).value)
    ensures var bound := BoundOf(lib, log, c.request);
            Alone(lib, log, c, inspector)
            == if bound.None? then Stepped(log, c.(pc := Done(Err(Invalid))))
               else Alone(lib, log, c.(pc := ReadStarted(bound.value)), inspector)
  {
    var bound := BoundOf(lib, log, c.request);
    AloneReads(lib, log, c, inspector, if bound.Some? then ReadStarted(bound.value) else Done(Err(Invalid)));
  }

  lemma AloneStarts(lib: Library, log: seq<Event>, c: Caller, inspector: Inspector)
    requires BoundOf(lib, log, c.request).Some? && c.pc == ReadStarted(BoundOf(lib, log, c.request).value)
    ensures var bound := StartedBound(lib, log, c.request);
            Alone(lib, log, c, inspector)
            == if bound.None? then Stepped(log, c.(pc := Done(Err(Invalid))))
               else Alone(lib, log, c.(pc := ReadReceipt(bound.value)), inspector)
  {
    var bound := StartedBound(lib, log, c.request);
    AloneReads(lib, log, c, inspector, if bound.Some? then ReadReceipt(bound.value) else Done(Err(Invalid)));
  }

  /** The gathering steps succeed exactly when all the evidence is there. */
  lemma AloneGathers(lib: Library, log: seq<Event>, request: ReconciliationRequest, inspector: Inspector)
    ensures var bound, c := StartedBound(lib, log, request), Fresh(request);
            Alone(lib, log, c, inspector)
            == if bound.None? then Stepped(log, c.(pc := Done(Err(Invalid))))
               else Alone(lib, log, c.(pc := ReadReceipt(bound.value)), inspector)
  {
    AloneIdentifies(lib, log, request, inspector);
    var prepared, bound := PreparedOf(lib, log, request), BoundOf(lib, log, request);
    if prepared.Some? {
      AloneBinds(lib, log, Fresh(request).(pc := ReadAuthorized(prepared.value)), inspector);
      if bound.Some? { AloneStarts(lib, log, Fresh(request).(pc := ReadStarted(bound.value)), inspector); }
    }
  }

  /** Where the saved receipt and decision lead a caller that has its evidence. */
  function Directed(lib: Library, log: seq<Event>, request: ReconciliationRequest, bound: Bound): Pc {
    var receipt := Find(log, SlotId(request, ReceiptSlot));
    var next := AfterReceipt(lib, request, bound, receipt);
    if next.Done? then next else AfterDecision(lib, request, bound, receipt, Find(log, DecisionId(request)))
  }

  lemma AloneIsDirected(lib: Library, log: seq<Event>, c: Caller, inspector: Inspector, bound: Bound)
    requires c.pc == ReadReceipt(bound)
    ensures Alone(lib, log, c, inspector) == Alone(lib, log, c.(pc := Directed(lib, log, c.request, bound)), inspector)
    ensures Directed(lib, log, c.request, bound).Done? ==>
              Alone(lib, log, c, inspector) == Stepped(log, c.(pc := Directed(lib, log, c.request, bound)))
  {
    var receipt := Find(log, SlotId(c.request, ReceiptSlot));
    var next := AfterReceipt(lib, c.request, bound, receipt);
    AloneReads(lib, log, c, inspector, next);
    if !next.Done? {
      AloneReads(lib, log, c.(pc := next), inspector,
                 AfterDecision(lib, c.request, bound, receipt, Find(log, DecisionId(c.request))));
    }
  }

  /** A decision is written, or there is a conflicting fact. */
  lemma AloneDecides(lib: Library, log: seq<Event>, c: Caller, inspector: Inspector, bound: Bound, resolution: Resolution)
    requires c.pc == WriteDecision(bound, resolution)
    ensures var fact := DecisionFact(c.request, bound, resolution);
            var appended := Appended(log, fact, false);
            Alone(lib, log, c, inspector)
            == if appended.Ok? then Stepped(appended.value, c.(pc := Done(Ok(resolution))))
               else Stepped(log, c.(pc := Done(if IsIdentical(Find(log, fact.eventId), fact) then Ok(resolution) else Err(Invalid))))
  {
    AloneSteps(lib, log, c, inspector, DecisionStep(log, c, bound, resolution));
    if Appended(log, DecisionFact(c.request, bound, resolution), false).Err? {
      var c1 := c.(pc := CheckDecision(bound, resolution));
      AloneReads(lib, log, c1, inspector, ReadStep(lib, log, c1));
    }
  }

  /** A receipt is written, or is there already, before the decision; or there is a conflicting fact. */
  lemma AloneSaves(lib: Library, log: seq<Event>, c: Caller, inspector: Inspector, bound: Bound, resolution: Resolution)
    requires c.pc == WriteReceipt(bound, resolution)
    ensures var fact := ReceiptFact(lib, c.request, bound, resolution);
            var appended := Appended(log, fact, false);
            var deciding := c.(pc := WriteDecision(bound, resolution));
            Alone(lib, log, c, inspector)
            == if appended.Ok? then Alone(lib, appended.value, deciding, inspector)
               else if IsIdentical(Find(log, fact.eventId), fact) then Alone(lib, log, deciding, inspector)
               else Stepped(log, c.(pc := Done(Err(Invalid))))
  {
    var fact := ReceiptFact(lib, c.request, bound, resolution);
    AloneSteps(lib, log, c, inspector, ReceiptStep(lib, log, c, bound, resolution));
    if Appended(log, fact, false).Err? {
      var c1 := c.(pc := CheckReceipt(bound, resolution));
      AloneReads(lib, log, c1, inspector, ReadStep(lib, log, c1));
    }
  }

  // ------------------------------------------------------------------ running again

  /** The saved evidence, receipt and decision already determine this answer. */
  ghost predicate Settled(lib: Library, log: seq<Event>, request: ReconciliationRequest, resolution: Resolution) {
    && StartedBound(lib, log, request).Some?
    && Directed(lib, log, request, StartedBound(lib, log, request).value) == Done(Ok(resolution))
  }

  /** A settled answer is given without a write and without inspection. */
  lemma SettledAnswers(lib: Library, log: seq<Event>, request: ReconciliationRequest, inspector: Inspector, resolution: Resolution)
    requires Settled(lib, log, request, resolution)
    ensures Alone(lib, log, Fresh(request), inspector) == Stepped(log, Caller(request, Done(Ok(resolution)), false))
  {
    var bound := StartedBound(lib, log, request).value;
    AloneGathers(lib, log, request, inspector);
    AloneIsDirected(lib, log, Fresh(request).(pc := ReadReceipt(bound)), inspector, bound);
  }

  /** Appending a fact leaves other lookups as they were. */
  lemma FindOther(log: seq<Event>, event: Event, id: EventId)
    requires event.eventId != id && Appended(log, event, false).Ok?
    ensures Find(Appended(log, event, false).value, id) == Find(log, id)
  {
    FindUpToIsStable(log, Appended(log, event, false).value, |log|, id);
  }

  /** A caller about to write a decision whose receipt is as it should be. */
  ghost predicate MayDecide(lib: Library, log: seq<Event>, c: Caller) {
    && c.pc.WriteDecision? && WellFormed(log)
    && StartedBound(lib, log, c.request) == Some(c.pc.bound)
    && c.pc.bound.ResolutionValid(lib, Proof(c.request, c.pc.resolution))
    && Agrees(lib, c.request, c.pc.bound, c.pc.resolution, Find(log, SlotId(c.request, ReceiptSlot)))
  }

  /** A decision that agrees with the receipt is accepted when it is read back. */
  lemma AgreedDecisionIsAccepted(lib: Library, request: ReconciliationRequest, bound: Bound, resolution: Resolution,
                                 receipt: Option<Event>, decision: Event)
    requires bound.ResolutionValid(lib, Proof(request, resolution)) && Agrees(lib, request, bound, resolution, receipt)
    requires decision.(cursor := 0) == DecisionFact(request, bound, resolution)
    ensures AfterReceipt(lib, request, bound, receipt) == ReadDecision(bound, receipt)
    ensures AfterDecision(lib, request, bound, receipt, Some(decision)) == Done(Ok(resolution))
  {
  }

  /** Once the decision is written the answer is settled. */
  lemma WrittenDecisionSettles(lib: Library, log: seq<Event>, c: Caller)
    requires MayDecide(lib, log, c)
    requires Appended(log, DecisionFact(c.request, c.pc.bound, c.pc.resolution), false).Ok?
    ensures Settled(lib, Appended(log, DecisionFact(c.request, c.pc.bound, c.pc.resolution), false).value, c.request, c.pc.resolution)
  {
    var fact := DecisionFact(c.request, c.pc.bound, c.pc.resolution);
    var longer := Appended(log, fact, false).value;
    StartedIsStable(lib, log, longer, c.request);
    FindOther(log, fact, SlotId(c.request, ReceiptSlot));
    AppendedIsFound(log, fact, false);
    AgreedDecisionIsAccepted(lib, c.request, c.pc.bound, c.pc.resolution, Find(log, SlotId(c.request, ReceiptSlot)),
                             fact.(cursor := |log| + 1));
  }

  /** A caller that writes its decision alone either settles the answer or reports an error. */
  lemma DecidingSettles(lib: Library, log: seq<Event>, c: Caller, inspector: Inspector)
    requires MayDecide(lib, log, c) && Find(log, DecisionId(c.request)).None?
    ensures var end := Alone(lib, log, c, inspector);
            end.caller.pc.Done? && (end.caller.pc.reply.Ok? ==>
              end.caller.pc.reply == Ok(c.pc.resolution) && Settled(lib, end.log, c.request, c.pc.resolution))
  {
    AloneDecides(lib, log, c, inspector, c.pc.bound, c.pc.resolution);
    if Appended(log, DecisionFact(c.request, c.pc.bound, c.pc.resolution), false).Ok? { WrittenDecisionSettles(lib, log, c); }
  }

  /** Writing the receipt of a fresh attestation leads to a decision that agrees with it. */
  lemma ReceiptLeadsToDecision(lib: Library, log: seq<Event>, c: Caller, inspector: Inspector)
    requires WellFormed(log) && PcOk(lib, log, c) && c.pc.WriteReceipt?
    requires Find(log, SlotId(c.request, ReceiptSlot)).None? && Find(log, DecisionId(c.request)).None?
    ensures var end := Alone(lib, log, c, inspector);
            end.caller.pc.Done? && (end.caller.pc.reply.Ok? ==>
              end.caller.pc.reply == Ok(c.pc.resolution) && Settled(lib, end.log, c.request, c.pc.resolution))
  {
    var fact := ReceiptFact(lib, c.request, c.pc.bound, c.pc.resolution);
    var appended := Appended(log, fact, false);
    AloneSaves(lib, log, c, inspector, c.pc.bound, c.pc.resolution);
    if appended.Ok? {
      AppendedKeepsWellFormed(log, fact, false);
      AppendedIsFound(log, fact, false);
      StartedIsStable(lib, log, appended.value, c.request);
      FindOther(log, fact, DecisionId(c.request));
      WrittenReceiptAgrees(lib, c.request, c.pc.bound, c.pc.resolution, fact.(cursor := |log| + 1));
      DecidingSettles(lib, appended.value, c.(pc := WriteDecision(c.pc.bound, c.pc.resolution)), inspector);
    }
  }

  /** A caller without receipt or decision inspects, and then settles its answer or reports an error. */
  lemma InspectingSettles(lib: Library, log: seq<Event>, c: Caller, inspector: Inspector)
    requires WellFormed(log) && PcOk(lib, log, c) && c.pc.Inspect?
    requires Find(log, SlotId(c.request, ReceiptSlot)).None? && Find(log, DecisionId(c.request)).None?
    ensures var end := Alone(lib, log, c, inspector);
            end.caller.pc.Done? && (end.caller.pc.reply.Ok? ==> Settled(lib, end.log, c.request, end.caller.pc.reply.value))
  {
    var bound := c.pc.bound;
    var next := CallerStep(lib, log, c, inspector);
    InspectionKeeps(lib, log, c, inspector);
    AloneSteps(lib, log, c, inspector, next);
    if next.caller.pc.WriteReceipt? { ReceiptLeadsToDecision(lib, log, next.caller, inspector); }
    else if next.caller.pc.WriteDecision? { DecidingSettles(lib, log, next.caller, inspector); }
  }

  /** Whatever a call answers successfully is settled when it returns. */
  lemma SuccessSettles(lib: Library, log: seq<Event>, request: ReconciliationRequest, inspector: Inspector)
    requires WellFormed(log)
    ensures var end := Alone(lib, log, Fresh(request), inspector);
            end.caller.pc.Done? && (end.caller.pc.reply.Ok? ==> Settled(lib, end.log, request, end.caller.pc.reply.value))
  {
    AloneGathers(lib, log, request, inspector);
    if StartedBound(lib, log, request).Some? {
      var bound := StartedBound(lib, log, request).value;
      AloneIsDirected(lib, log, Fresh(request).(pc := ReadReceipt(bound)), inspector, bound);
      DirectedSettles(lib, log, request, inspector, bound);
    }
  }

  /** A caller is directed to its answer, to the inspector, or to writing the decision of a saved proof. */
  lemma WhereDirected(lib: Library, log: seq<Event>, request: ReconciliationRequest, bound: Bound)
    ensures var pc, receipt := Directed(lib, log, request, bound), Find(log, SlotId(request, ReceiptSlot));
            || pc.Done?
            || (pc == Inspect(bound) && receipt.None? && Find(log, DecisionId(request)).None?)
            || (pc.WriteDecision? && pc.bound == bound && Find(log, DecisionId(request)).None?
                && bound.ResolutionValid(lib, Proof(request, pc.resolution))
                && Agrees(lib, request, bound, pc.resolution, receipt))
  {
    var pc, receipt := Directed(lib, log, request, bound), Find(log, SlotId(request, ReceiptSlot));
    if pc.WriteDecision? { SavedProofAgrees(lib, request, bound, receipt.value); }
  }

  lemma DirectedSettles(lib: Library, log: seq<Event>, request: ReconciliationRequest, inspector: Inspector, bound: Bound)
    requires WellFormed(log) && StartedBound(lib, log, request) == Some(bound)
    ensures var pc := Directed(lib, log, request, bound);
            var end := Alone(lib, log, Fresh(request).(pc := pc), inspector);
            !pc.Done? ==>
              end.caller.pc.Done? && (end.caller.pc.reply.Ok? ==> Settled(lib, end.log, request, end.caller.pc.reply.value))
  {
    var c := Fresh(request).(pc := Directed(lib, log, request, bound));
    WhereDirected(lib, log, request, bound);
    if c.pc.Inspect? {
      InspectingSettles(lib, log, c, inspector);
    } else if c.pc.WriteDecision? {
      DecidingSettles(lib, log, c, inspector);
    }
  }

  /**
   A call that succeeded can be made again, with any inspector: it gives the same
   answer, writes nothing and does not inspect.
   */
  lemma RerunRepeats(lib: Library, log: seq<Event>, request: ReconciliationRequest, inspector: Inspector, other: Inspector)
    requires WellFormed(log) && Alone(lib, log, Fresh(request), inspector).caller.pc.Done?
    requires Alone(lib, log, Fresh(request), inspector).caller.pc.reply.Ok?
    ensures var end := Alone(lib, log, Fresh(request), inspector);
            Alone(lib, end.log, Fresh(request), other) == Stepped(end.log, Caller(request, end.caller.pc, false))
  {
    var end := Alone(lib, log, Fresh(request), inspector);
    SuccessSettles(lib, log, request, inspector);
    SettledAnswers(lib, end.log, request, other, end.caller.pc.reply.value);
  }

  /** The call made again answers with this caller's resolution, writes exactly its decision and does not inspect. */
  ghost predicate Repairs(lib: Library, log: seq<Event>, c: Caller, inspector: Inspector)
    requires c.pc.WriteDecision?
  {
    Alone(lib, log, Fresh(c.request), inspector)
    == Stepped(log + [DecisionFact(c.request, c.pc.bound, c.pc.resolution).(cursor := |log| + 1)],
               Caller(c.request, Done(Ok(c.pc.resolution)), false))
  }

  /**
   Repair after a crash: in every reachable state, if a call got as far as its
   committed decision but the decision is not there, making the call again with
   any inspector writes exactly that decision, with the saved proof.
   */
  lemma CrashIsRepaired(lib: Library, actions: seq<Action>, s: State, id: nat, inspector: Inspector)
    requires s == RunUpTo(lib, INITIAL, actions, |actions|)
    requires id in s.callers && s.callers[id].pc.WriteDecision? && s.callers[id].pc.resolution.Committed?
    requires Find(s.log, DecisionId(s.callers[id].request)).None?
    ensures Repairs(lib, s.log, s.callers[id], inspector)
  {
    ReachableCaller(lib, actions, s, id);
    Repair(lib, s.log, s.callers[id], inspector);
  }

  lemma Repair(lib: Library, log: seq<Event>, c: Caller, inspector: Inspector)
    requires LogInv(log) && PcOk(lib, log, c) && c.pc.WriteDecision? && c.pc.resolution.Committed?
    requires Find(log, DecisionId(c.request)).None?
    ensures Repairs(lib, log, c, inspector)
  {
    var request, bound, resolution := c.request, c.pc.bound, c.pc.resolution;
    AloneGathers(lib, log, request, inspector);
    AloneIsDirected(lib, log, Fresh(request).(pc := ReadReceipt(bound)), inspector, bound);
    RepairIsDirected(lib, log, c);
    AloneDecides(lib, log, Fresh(request).(pc := WriteDecision(bound, resolution)), inspector, bound, resolution);
    NotTaken(log, DecisionFact(request, bound, resolution));
  }

  lemma NotTaken(log: seq<Event>, fact: Event)
    requires forall i :: 0 <= i < |log| ==> log[i].idempotencyKey == log[i].eventId
    requires Find(log, fact.eventId).None? && fact.idempotencyKey == fact.eventId
    ensures !IsTaken(log, fact)
  {
  }

  lemma RepairIsDirected(lib: Library, log: seq<Event>, c: Caller)
    requires PcOk(lib, log, c) && c.pc.WriteDecision? && c.pc.resolution.Committed?
    requires Find(log, DecisionId(c.request)).None?
    ensures Directed(lib, log, c.request, c.pc.bound) == c.pc
  {
  }
}
