/**
 What every step of every caller keeps, and what follows over whole runs: who was
 admitted, who owns an execution, and what a cancel leaves.
 */
module CoordinatorSafety {
  import opened Wrappers
  import opened LedgerTypes
  import opened Ledger
  import opened Coordinator
  import opened CoordinatorProtocol

  // -------------------------------------------------------------------- invariants

  ghost predicate LogOk(log: seq<Event>) {
    && WellFormed(log)
    && (forall i :: 0 <= i < |log| ==> log[i].idempotencyKey == log[i].eventId)
    && (forall i :: 0 <= i < |log| && log[i].eventId.ReadmissionId? ==> log[i].eventId.cursor <= i)
  }

  /** The caller read an execution that had not ended. */
  ghost predicate ReadOpen(log: seq<Event>, c: Caller) {
    c.seen <= |log| && !IsTerminal(Stored(log[..c.seen], c.key.executionId))
  }

  ghost predicate FactOk(log: seq<Event>, c: Caller, fact: Event) {
    && fact.executionId == c.key.executionId && fact.idempotencyKey == fact.eventId
    && fact.kind == (if c.op.CancelOp? then ExecutionCancelled else ExecutionStarted)
    && (fact.eventId.ReadmissionId? ==> fact.eventId.cursor <= |log|)
  }

  ghost predicate HasBegun(log: seq<Event>, execution: string) {
    Stored(log, execution) != New
  }

  /** What a caller past its record relies on: the cancellation is there, or the execution is new no more. */
  ghost predicate HasRecorded(log: seq<Event>, c: Caller) {
    if c.op.CancelOp? then Happened(log, c.key.executionId, ExecutionCancelled) else HasBegun(log, c.key.executionId)
  }

  ghost predicate PcOk(log: seq<Event>, c: Caller) {
    match c.pc
    case ReadLog => true
    case ReadActive => ReadOpen(log, c) && HasBegun(log, c.key.executionId)
    case ReadCursor => ReadOpen(log, c) && !c.op.CancelOp?
    case Lookup(fact) => ReadOpen(log, c) && FactOk(log, c, fact)
    case WriteFact(fact) => ReadOpen(log, c) && FactOk(log, c, fact)
    case Recheck(fact) => ReadOpen(log, c) && FactOk(log, c, fact) && Find(log, fact.eventId).Some?
    case Admitting => ReadOpen(log, c) && HasRecorded(log, c) && !c.op.CancelOp?
    case Releasing => ReadOpen(log, c) && HasRecorded(log, c) && c.op.CancelOp?
    case Done(result) =>
      result.Ok? ==> if c.op.CancelOp? then IsTerminal(Stored(log, c.key.executionId))
                     else ReadOpen(log, c) && HasRecorded(log, c)
    case Crashed => true
    case _ => ReadOpen(log, c)
  }

  /** The owned executions after the first `n` changes. */
  function OwnedUpTo(trace: seq<Ownership>, n: nat): set<string>
    requires n <= |trace|
  {
    if n == 0 then {}
    else match trace[n - 1]
      case Admission(execution, _) => OwnedUpTo(trace, n - 1) + {execution}
      case Released(execution) => OwnedUpTo(trace, n - 1) - {execution}
      case Restarted => {}
  }

  /** Change `k` admits this execution to a caller that succeeded. */
  ghost predicate AdmittedAt(s: State, k: int, execution: string, id: nat) {
    && 0 <= k < |s.trace| && s.trace[k] == Admission(execution, id)
    && execution !in OwnedUpTo(s.trace, k)
    && id in s.callers && s.callers[id].key.executionId == execution
    && !s.callers[id].op.CancelOp? && s.callers[id].pc == Done(Ok(()))
  }

  ghost predicate TraceOk(s: State) {
    && s.active == OwnedUpTo(s.trace, |s.trace|)
    && (forall k :: 0 <= k < |s.trace| && s.trace[k].Admission? ==> AdmittedAt(s, k, s.trace[k].execution, s.trace[k].caller))
    && (forall j, k :: 0 <= j < k < |s.trace| && s.trace[j].Admission? && s.trace[k].Admission? ==> s.trace[j].caller != s.trace[k].caller)
    && (forall id :: id in s.callers && s.callers[id].pc == Done(Ok(())) && !s.callers[id].op.CancelOp? ==> HasAdmission(s.trace, id))
  }

  ghost predicate HasAdmission(trace: seq<Ownership>, id: nat) {
    exists k :: 0 <= k < |trace| && trace[k].Admission? && trace[k].caller == id
  }

  ghost predicate CallersOk(log: seq<Event>, callers: map<nat, Caller>) {
    forall id :: id in callers ==> PcOk(log, callers[id])
  }

  ghost predicate Inv(s: State) {
    LogOk(s.log) && CallersOk(s.log, s.callers) && TraceOk(s)
  }

  // ------------------------------------------------------------- growing the ledger

  lemma PcOkIsStable(log: seq<Event>, longer: seq<Event>, c: Caller)
    requires log <= longer && PcOk(log, c)
    ensures PcOk(longer, c)
  {
    if c.seen <= |log| { assert longer[..c.seen] == log[..c.seen]; }
    if Happened(log, c.key.executionId, ExecutionCancelled) { HappenedIsStable(log, longer, c.key.executionId, ExecutionCancelled); }
    if HasBegun(log, c.key.executionId) { BegunIsStable(log, longer, c.key.executionId); }
    if c.pc.Recheck? { FindIsStable(log, longer, c.pc.fact.eventId); }
    if IsTerminal(Stored(log, c.key.executionId)) { TerminalForever(log, longer, {}, {}, c.key.executionId); }
  }

  lemma {:induction false} NeverNewAgain(events: seq<Event>, m: nat, n: nat)
    requires m <= n <= |events| && FoldUpTo(events, m) != New
    ensures FoldUpTo(events, n) != New
  {
    if m < n { NeverNewAgain(events, m, n - 1); }
  }

  /** An execution that has begun is never new again. */
  lemma BegunIsStable(log: seq<Event>, longer: seq<Event>, execution: string)
    requires log <= longer && HasBegun(log, execution)
    ensures HasBegun(longer, execution)
  {
    var events, more := EventsOf(log, execution, 0), EventsOf(longer, execution, 0);
    EventsOfGrow(log, longer, execution);
    FoldOfPrefix(events, more, |events|);
    NeverNewAgain(more, |events|, |more|);
  }

  lemma StartedHasBegun(log: seq<Event>, execution: string)
    requires WellFormed(log) && Happened(log, execution, ExecutionStarted)
    ensures HasBegun(log, execution)
  {
    if !HasBegun(log, execution) { NewHasNotStarted(log, execution); }
  }

  lemma HappenedIsStable(log: seq<Event>, longer: seq<Event>, execution: string, kind: Kind)
    requires log <= longer && Happened(log, execution, kind)
    ensures Happened(longer, execution, kind)
  {
    var e :| e in log && e.executionId == execution && e.kind == kind;
    assert e in longer;
  }

  lemma CallersOkIsStable(log: seq<Event>, longer: seq<Event>, callers: map<nat, Caller>)
    requires log <= longer && CallersOk(log, callers)
    ensures CallersOk(longer, callers)
  {
    forall id | id in callers ensures PcOk(longer, callers[id]) { PcOkIsStable(log, longer, callers[id]); }
  }

  lemma AppendKeepsLog(log: seq<Event>, event: Event, checkCancel: bool)
    requires LogOk(log) && event.idempotencyKey == event.eventId && Appended(log, event, checkCancel).Ok?
    requires event.eventId.ReadmissionId? ==> event.eventId.cursor <= |log|
    ensures LogOk(Appended(log, event, checkCancel).value)
  {
    AppendedKeepsWellFormed(log, event, checkCancel);
  }

  lemma LatestCursorIsThere(log: seq<Event>, execution: string)
    requires WellFormed(log)
    ensures LastCursor(log, execution) <= |log|
  {
    MatchingAscends(log, |log|, Query(Some(execution), None, 0, None, PAGE_LIMIT));
  }

  /** What was found happened. */
  lemma SavedHappened(log: seq<Event>, c: Caller, fact: Event)
    requires WellFormed(log) && Saved(log, fact) && FactOk(log, c, fact)
    ensures HasRecorded(log, c)
  {
    var i :| 0 <= i < |log| && log[i] == Find(log, fact.eventId).value;
    assert log[i] in log;
    if !c.op.CancelOp? { StartedHasBegun(log, c.key.executionId); }
  }

  /** Under keys that are identities, what cannot be appended is there. */
  lemma TakenIsFound(log: seq<Event>, fact: Event)
    requires LogOk(log) && fact.idempotencyKey == fact.eventId
    ensures IsTaken(log, fact) <==> Find(log, fact.eventId).Some?
  {
  }

  // --------------------------------------------------------------------- one caller

  lemma CancelledHasEnded(log: seq<Event>, execution: string)
    requires WellFormed(log) && Happened(log, execution, ExecutionCancelled)
    ensures IsTerminal(Stored(log, execution))
  {
    if !IsTerminal(Stored(log, execution)) { OpenIsNotCancelled(log, execution); }
  }

  lemma ReadKeeps(log: seq<Event>, active: set<string>, c: Caller)
    requires LogOk(log) && PcOk(log, c)
    ensures PcOk(log, ReadStep(log, active, c))
  {
    match c.pc
    case ReadLog => assert log[..|log|] == log;
    case ReadCursor => LatestCursorIsThere(log, c.key.executionId);
    case Lookup(fact) => if Saved(log, fact) { SavedHappened(log, c, fact); }
    case Recheck(fact) => if Saved(log, fact) { SavedHappened(log, c, fact); }
    case _ =>
  }

  lemma WriteKeeps(log: seq<Event>, c: Caller, fact: Event)
    requires LogOk(log) && PcOk(log, c) && c.pc == WriteFact(fact)
    ensures var r := WriteStep(log, c, fact);
            log <= r.0 && LogOk(r.0) && PcOk(r.0, r.1)
  {
    var appended := Appended(log, fact, false);
    if appended.Ok? {
      AppendKeepsLog(log, fact, false);
      assert fact.(cursor := |log| + 1) in appended.value;
      if !c.op.CancelOp? { StartedHasBegun(appended.value, c.key.executionId); }
      assert appended.value[..c.seen] == log[..c.seen];
    } else {
      TakenIsFound(log, fact);
    }
  }

  /** Replacing one caller keeps the others. */
  lemma ReplacedKeeps(log: seq<Event>, longer: seq<Event>, callers: map<nat, Caller>, id: nat, c: Caller)
    requires log <= longer && CallersOk(log, callers) && PcOk(longer, c)
    ensures CallersOk(longer, callers[id := c])
  {
    CallersOkIsStable(log, longer, callers);
  }

  // ------------------------------------------------------------------------ the trace

  lemma {:induction false} OwnedOfPrefix(trace: seq<Ownership>, longer: seq<Ownership>, n: nat)
    requires trace <= longer && n <= |trace|
    ensures OwnedUpTo(longer, n) == OwnedUpTo(trace, n)
  {
    if n > 0 { OwnedOfPrefix(trace, longer, n - 1); }
  }

  /** A change that admits nobody, and callers that keep what they have been answered. */
  lemma QuietTraceKeeps(s: State, t: State, change: seq<Ownership>)
    requires TraceOk(s) && t.trace == s.trace + change && |change| <= 1 && (change != [] ==> !change[0].Admission?)
    requires t.active == OwnedUpTo(t.trace, |t.trace|)
    requires forall id :: id in s.callers && s.callers[id].pc.Done? ==> id in t.callers && t.callers[id] == s.callers[id]
    requires forall id :: id in t.callers && t.callers[id].pc == Done(Ok(())) && !t.callers[id].op.CancelOp? ==>
               id in s.callers && s.callers[id] == t.callers[id]
    ensures TraceOk(t)
  {
    forall k | 0 <= k < |t.trace| && t.trace[k].Admission? ensures AdmittedAt(t, k, t.trace[k].execution, t.trace[k].caller) {
      assert t.trace[k] == s.trace[k];
      assert AdmittedAt(s, k, s.trace[k].execution, s.trace[k].caller);
      OwnedOfPrefix(s.trace, t.trace, k);
    }
    forall id | id in t.callers && t.callers[id].pc == Done(Ok(())) && !t.callers[id].op.CancelOp? ensures HasAdmission(t.trace, id) {
      AdmissionStays(s.trace, t.trace, id);
    }
  }

  lemma AdmissionStays(trace: seq<Ownership>, longer: seq<Ownership>, id: nat)
    requires trace <= longer && HasAdmission(trace, id)
    ensures HasAdmission(longer, id)
  {
    var k :| 0 <= k < |trace| && trace[k].Admission? && trace[k].caller == id;
    assert longer[k] == trace[k];
  }

  /** The change that admits an unanswered caller. */
  lemma AdmissionKeeps(s: State, id: nat)
    requires TraceOk(s) && id in s.callers && s.callers[id].pc.Admitting? && !s.callers[id].op.CancelOp?
    requires s.callers[id].key.executionId !in s.active
    ensures TraceOk(Stepped(s, id))
  {
    var t, n := Stepped(s, id), |s.trace|;
    OwnedOfPrefix(s.trace, t.trace, n);
    forall k | 0 <= k < |t.trace| && t.trace[k].Admission? ensures AdmittedAt(t, k, t.trace[k].execution, t.trace[k].caller) {
      if k < n {
        assert t.trace[k] == s.trace[k];
        assert AdmittedAt(s, k, s.trace[k].execution, s.trace[k].caller);
        OwnedOfPrefix(s.trace, t.trace, k);
      }
    }
    forall j | 0 <= j < n && t.trace[j].Admission? ensures t.trace[j].caller != id {
      assert AdmittedAt(s, j, s.trace[j].execution, s.trace[j].caller);
    }
    forall other | other in t.callers && t.callers[other].pc == Done(Ok(())) && !t.callers[other].op.CancelOp?
      ensures HasAdmission(t.trace, other)
    {
      if other == id { assert t.trace[n].Admission? && t.trace[n].caller == id; } else { AdmissionStays(s.trace, t.trace, other); }
    }
  }

  // ------------------------------------------------------------------------- every step

  lemma AdmittingKeeps(s: State, id: nat)
    requires Inv(s) && id in s.callers && s.callers[id].pc.Admitting?
    ensures Inv(Stepped(s, id))
  {
    assert PcOk(s.log, s.callers[id]);
    ReplacedKeeps(s.log, s.log, s.callers, id, Stepped(s, id).callers[id]);
    if s.callers[id].key.executionId in s.active { QuietTraceKeeps(s, Stepped(s, id), []); } else { AdmissionKeeps(s, id); }
  }

  lemma ReleasingKeeps(s: State, id: nat)
    requires Inv(s) && id in s.callers && s.callers[id].pc.Releasing?
    ensures Inv(Stepped(s, id))
  {
    var t := Stepped(s, id);
    assert PcOk(s.log, s.callers[id]);
    CancelledHasEnded(s.log, s.callers[id].key.executionId);
    ReplacedKeeps(s.log, s.log, s.callers, id, t.callers[id]);
    OwnedOfPrefix(s.trace, t.trace, |s.trace|);
    QuietTraceKeeps(s, t, [Released(s.callers[id].key.executionId)]);
  }

  lemma WritingKeeps(s: State, id: nat)
    requires Inv(s) && id in s.callers && s.callers[id].pc.WriteFact?
    ensures Inv(Stepped(s, id)) && s.log <= Stepped(s, id).log
  {
    var t := Stepped(s, id);
    WriteKeeps(s.log, s.callers[id], s.callers[id].pc.fact);
    ReplacedKeeps(s.log, t.log, s.callers, id, t.callers[id]);
    QuietTraceKeeps(s, t, []);
  }

  /** A read never answers an admission with success. */
  lemma ReadAdmitsNobody(log: seq<Event>, active: set<string>, c: Caller)
    ensures var d := ReadStep(log, active, c);
            d.op == c.op && d.key == c.key && (c.pc.Done? ==> d == c) && (d.pc == Done(Ok(())) && !c.op.CancelOp? ==> c.pc == d.pc)
  {
  }

  lemma ReadingKeeps(s: State, id: nat)
    requires Inv(s) && id in s.callers
    requires !s.callers[id].pc.Admitting? && !s.callers[id].pc.Releasing? && !s.callers[id].pc.WriteFact?
    ensures Inv(Stepped(s, id))
  {
    var t := Stepped(s, id);
    ReadKeeps(s.log, s.active, s.callers[id]);
    ReadAdmitsNobody(s.log, s.active, s.callers[id]);
    ReplacedKeeps(s.log, s.log, s.callers, id, t.callers[id]);
    QuietTraceKeeps(s, t, []);
  }

  lemma StepKeeps(s: State, id: nat)
    requires Inv(s) && id in s.callers
    ensures Inv(Stepped(s, id)) && s.log <= Stepped(s, id).log
  {
    if s.callers[id].pc.Admitting? { AdmittingKeeps(s, id); }
    else if s.callers[id].pc.Releasing? { ReleasingKeeps(s, id); }
    else if s.callers[id].pc.WriteFact? { WritingKeeps(s, id); }
    else { ReadingKeeps(s, id); }
  }

  lemma RestartKeeps(s: State)
    requires Inv(s)
    ensures Inv(Next(s, Restart))
  {
    var t := Next(s, Restart);
    forall id | id in t.callers ensures PcOk(t.log, t.callers[id]) { assert PcOk(s.log, s.callers[id]); }
    QuietTraceKeeps(s, t, [Restarted]);
  }

  lemma ForeignKeeps(s: State, event: Event, checkCancel: bool)
    requires Inv(s)
    ensures Inv(Next(s, Foreign(event, checkCancel))) && s.log <= Next(s, Foreign(event, checkCancel)).log
  {
    var t := Next(s, Foreign(event, checkCancel));
    if ForeignAllowed(s.log, event) && Appended(s.log, event, checkCancel).Ok? {
      AppendKeepsLog(s.log, event, checkCancel);
      CallersOkIsStable(s.log, t.log, s.callers);
      QuietTraceKeeps(s, t, []);
    }
  }

  lemma NextKeeps(s: State, action: Action)
    requires Inv(s)
    ensures Inv(Next(s, action)) && s.log <= Next(s, action).log
  {
    var t := Next(s, action);
    match action
    case Spawn(id, op, key) =>
      if id !in s.callers {
        ReplacedKeeps(s.log, s.log, s.callers, id, Fresh(op, key));
        QuietTraceKeeps(s, t, []);
      }
    case Step(id) => if id in s.callers { StepKeeps(s, id); }
    case Crash(id) =>
      if id in s.callers {
        assert PcOk(s.log, s.callers[id]);
        ReplacedKeeps(s.log, s.log, s.callers, id, Stopped(s.callers[id]));
        QuietTraceKeeps(s, t, []);
      }
    case Restart => RestartKeeps(s);
    case Release(execution) =>
      OwnedOfPrefix(s.trace, t.trace, |s.trace|);
      QuietTraceKeeps(s, t, [Released(execution)]);
    case Foreign(event, checkCancel) => ForeignKeeps(s, event, checkCancel);
  }

  lemma {:induction false} RunKeepsInv(s: State, actions: seq<Action>, n: nat)
    requires Inv(s) && n <= |actions|
    ensures Inv(RunUpTo(s, actions, n)) && s.log <= RunUpTo(s, actions, n).log
  {
    if n > 0 {
      RunKeepsInv(s, actions, n - 1);
      NextKeeps(RunUpTo(s, actions, n - 1), actions[n - 1]);
    }
  }

  lemma ReachableIsOk(actions: seq<Action>, s: State)
    requires s == Run(INITIAL, actions)
    ensures Inv(s)
  {
    RunKeepsInv(INITIAL, actions, |actions|);
  }

  // ------------------------------------------------------------------- main results

  /** Change `r` ends the ownership of this execution. */
  predicate Ends(trace: seq<Ownership>, r: int, execution: string) {
    0 <= r < |trace| && (trace[r] == Released(execution) || trace[r] == Restarted)
  }

  lemma {:induction false} EndedSince(trace: seq<Ownership>, execution: string, id: nat, k: nat, n: nat) returns (r: nat)
    requires k < n <= |trace| && trace[k] == Admission(execution, id) && execution !in OwnedUpTo(trace, n)
    ensures k < r < n && Ends(trace, r, execution)
  {
    if Ends(trace, n - 1, execution) { r := n - 1; } else { r := EndedSince(trace, execution, id, k, n - 1); }
  }

  /** Change `k` is the admission this caller succeeded with. */
  lemma AdmissionOf(s: State, id: nat) returns (k: nat)
    requires TraceOk(s) && id in s.callers && s.callers[id].pc == Done(Ok(())) && !s.callers[id].op.CancelOp?
    ensures AdmittedAt(s, k, s.callers[id].key.executionId, id)
  {
    assert HasAdmission(s.trace, id);
    k :| 0 <= k < |s.trace| && s.trace[k].Admission? && s.trace[k].caller == id;
    assert AdmittedAt(s, k, s.trace[k].execution, s.trace[k].caller);
  }

  /**
   In every interleaving of start, resume, recovery, direct admission, cancellation,
   release, crashes and restarts: if two callers were both admitted to one execution, then each has its own
   admission, and between the two the execution was released or the process restarted.
   */
  lemma OneAdmissionBetweenReleases(actions: seq<Action>, s: State, a: nat, b: nat) returns (j: nat, r: nat, k: nat)
    requires s == Run(INITIAL, actions) && a != b && a in s.callers && b in s.callers
    requires s.callers[a].pc == Done(Ok(())) && !s.callers[a].op.CancelOp?
    requires s.callers[b].pc == Done(Ok(())) && !s.callers[b].op.CancelOp?
    requires s.callers[a].key.executionId == s.callers[b].key.executionId
    ensures var execution := s.callers[a].key.executionId;
            && j < r < k < |s.trace| && Ends(s.trace, r, execution)
            && ((s.trace[j] == Admission(execution, a) && s.trace[k] == Admission(execution, b))
                || (s.trace[j] == Admission(execution, b) && s.trace[k] == Admission(execution, a)))
  {
    ReachableIsOk(actions, s);
    var execution := s.callers[a].key.executionId;
    j := AdmissionOf(s, a);
    k := AdmissionOf(s, b);
    if j < k {
      r := EndedSince(s.trace, execution, a, j, k);
    } else {
      r := EndedSince(s.trace, execution, b, k, j);
      j, k := k, j;
    }
  }

  /** A cancel that succeeded leaves an execution that has ended, then and ever after. */
  lemma CancelEndsForGood(actions: seq<Action>, later: seq<Action>, s: State, t: State, id: nat)
    requires s == Run(INITIAL, actions) && t == Run(s, later)
    requires id in s.callers && s.callers[id].op.CancelOp? && s.callers[id].pc == Done(Ok(()))
    ensures IsTerminal(Stored(s.log, s.callers[id].key.executionId))
    ensures Stored(t.log, s.callers[id].key.executionId) == Stored(s.log, s.callers[id].key.executionId)
  {
    ReachableIsOk(actions, s);
    assert PcOk(s.log, s.callers[id]);
    RunKeepsInv(s, later, |later|);
    TerminalForever(s.log, t.log, {}, {}, s.callers[id].key.executionId);
  }

  lemma {:induction false} OwnerSince(trace: seq<Ownership>, execution: string, n: nat) returns (k: nat, id: nat)
    requires n <= |trace| && execution in OwnedUpTo(trace, n)
    ensures k < n && trace[k] == Admission(execution, id) && forall r :: k < r < n ==> !Ends(trace, r, execution)
  {
    if trace[n - 1].Admission? && trace[n - 1].execution == execution {
      k, id := n - 1, trace[n - 1].caller;
    } else {
      k, id := OwnerSince(trace, execution, n - 1);
    }
  }

  /** Some caller was admitted, and nothing has ended its ownership since. */
  ghost predicate HasOwner(s: State, execution: string) {
    exists k, id :: IsOwner(s, execution, k, id)
  }

  ghost predicate IsOwner(s: State, execution: string, k: nat, id: nat) {
    AdmittedAt(s, k, execution, id) && forall r :: k < r < |s.trace| ==> !Ends(s.trace, r, execution)
  }

  /**
   An execution is owned, ended or not, exactly when an admission of it came after all
   its releases; and that owner had read its state before it ended.
   */
  lemma OwnedExactlyWhen(actions: seq<Action>, s: State, execution: string)
    requires s == Run(INITIAL, actions)
    ensures execution in s.active <==> HasOwner(s, execution)
    ensures forall k, id :: IsOwner(s, execution, k, id) ==> ReadOpen(s.log, s.callers[id])
  {
    ReachableIsOk(actions, s);
    if execution in s.active {
      var k, id := OwnerSince(s.trace, execution, |s.trace|);
      assert AdmittedAt(s, k, execution, id);
      assert IsOwner(s, execution, k, id);
    }
    if HasOwner(s, execution) {
      var k, id :| IsOwner(s, execution, k, id);
      if execution !in s.active { var r := EndedSince(s.trace, execution, id, k, |s.trace|); }
    }
    forall k, id | IsOwner(s, execution, k, id) ensures ReadOpen(s.log, s.callers[id]) { assert PcOk(s.log, s.callers[id]); }
  }

  /** An owned execution has begun: no run reaches a new one that is owned. */
  lemma OwnedHasBegun(actions: seq<Action>, s: State, execution: string)
    requires s == Run(INITIAL, actions) && execution in s.active
    ensures HasBegun(s.log, execution)
  {
    ReachableIsOk(actions, s);
    var k, id := OwnerSince(s.trace, execution, |s.trace|);
    assert AdmittedAt(s, k, execution, id);
    assert PcOk(s.log, s.callers[id]);
  }
}
