/**
 Lifecycle of executions: the state folded forward from an execution's ledger, the
 backward scan for its current suspension, and the local admissions of one process.
 */
module Coordinator {
  import opened Wrappers
  import opened LedgerTypes
  import opened Ledger

  datatype ExecutionState = New | Running | Suspended | Completed | Cancelled | Failed

  datatype CoordinatorError = AlreadyActive | NotRecoverable | Terminal | NotSuspended | LedgerFailure(error: LedgerError)

  predicate IsTerminal(state: ExecutionState) {
    state.Completed? || state.Cancelled? || state.Failed?
  }

  // ------------------------------------------------------------------ forward fold

  /** The state after one more event. */
  function After(state: ExecutionState, kind: Kind): ExecutionState {
    match kind
    case ExecutionStarted => Running
    case TurnCheckpointPrepared => Running
    case TurnCheckpointMerged => Running
    case ExecutionSuspended => Suspended
    case ExecutionCancelled => Cancelled
    case TurnCancelled => Cancelled
    case TurnCompleted => Completed
    case TurnFailed => Failed
    case TurnTimedOut => Failed
    case EffectUncertain => Failed
    case _ => state
  }

  /** The fold over the first `n` events; a terminal state ends it. */
  function FoldUpTo(events: seq<Event>, n: nat): ExecutionState
    requires n <= |events|
  {
    if n == 0 then New
    else
      var earlier := FoldUpTo(events, n - 1);
      if IsTerminal(earlier) then earlier else After(earlier, events[n - 1].kind)
  }

  function Folded(events: seq<Event>): ExecutionState {
    FoldUpTo(events, |events|)
  }

  /** A terminal state is unchanged by whatever follows. */
  lemma {:induction false} TerminalIsFinal(events: seq<Event>, m: nat, n: nat)
    requires m <= n <= |events| && IsTerminal(FoldUpTo(events, m))
    ensures FoldUpTo(events, n) == FoldUpTo(events, m)
  {
    if m < n { TerminalIsFinal(events, m, n - 1); }
  }

  lemma {:induction false} FoldOfPrefix(events: seq<Event>, longer: seq<Event>, n: nat)
    requires events <= longer && n <= |events|
    ensures FoldUpTo(longer, n) == FoldUpTo(events, n)
  {
    if n > 0 { FoldOfPrefix(events, longer, n - 1); }
  }

  predicate EndsExecution(kind: Kind) {
    || kind == ExecutionCancelled || kind == TurnCancelled || kind == TurnCompleted
    || kind == TurnFailed || kind == TurnTimedOut || kind == EffectUncertain
  }

  predicate HasEnded(events: seq<Event>, n: nat)
    requires n <= |events|
  {
    exists i :: 0 <= i < n && EndsExecution(events[i].kind)
  }

  // ----------------------------------------------------------------- backward scan

  /** The kinds the scan for a suspension stops at. */
  predicate IsLifecycle(kind: Kind) {
    || kind == ExecutionStarted || kind == ExecutionSuspended
    || kind == TurnCheckpointMerged || kind == TurnCheckpointPrepared
    || kind == ExecutionCancelled || kind == TurnCancelled
    || kind == TurnCompleted || kind == TurnFailed || kind == TurnTimedOut
  }

  /** Event `i` is the latest lifecycle event among the first `n`. */
  ghost predicate IsLatest(events: seq<Event>, n: nat, i: int)
    requires n <= |events|
  {
    0 <= i < n && IsLifecycle(events[i].kind) && forall k :: i < k < n ==> !IsLifecycle(events[k].kind)
  }

  /** The latest lifecycle event among the first `n` is a suspension. */
  ghost predicate SuspendedLast(events: seq<Event>, n: nat)
    requires n <= |events|
  {
    exists i :: IsLatest(events, n, i) && events[i].kind == ExecutionSuspended
  }

  /** Scan backward for the latest lifecycle event; it counts only if it is a suspension. */
  method CurrentSuspension(events: seq<Event>) returns (r: Option<Event>)
    ensures r.Some? <==> SuspendedLast(events, |events|)
    ensures r.Some? ==> exists i :: IsLatest(events, |events|, i) && events[i] == r.value && r.value.kind == ExecutionSuspended
  {
    var i := |events|;
    while i > 0
      invariant 0 <= i <= |events|
      invariant forall k :: i <= k < |events| ==> !IsLifecycle(events[k].kind)
    {
      i := i - 1;
      if IsLifecycle(events[i].kind) {
        assert IsLatest(events, |events|, i);
        return if events[i].kind == ExecutionSuspended then Some(events[i]) else None;
      }
    }
    return None;
  }

  lemma {:induction false} EndedIsTerminal(events: seq<Event>, n: nat)
    requires n <= |events|
    ensures IsTerminal(FoldUpTo(events, n)) <==> HasEnded(events, n)
  {
    if n > 0 { EndedIsTerminal(events, n - 1); }
  }

  /** A lifecycle event that is last stays last past events that are none, and no longer. */
  lemma LatestStep(events: seq<Event>, n: nat)
    requires 0 < n <= |events|
    ensures SuspendedLast(events, n)
            <==> if IsLifecycle(events[n - 1].kind) then events[n - 1].kind == ExecutionSuspended else SuspendedLast(events, n - 1)
  {
    if IsLifecycle(events[n - 1].kind) {
      assert IsLatest(events, n, n - 1);
    } else {
      if SuspendedLast(events, n - 1) {
        var i :| IsLatest(events, n - 1, i) && events[i].kind == ExecutionSuspended;
        assert IsLatest(events, n, i);
      }
      if SuspendedLast(events, n) {
        var i :| IsLatest(events, n, i) && events[i].kind == ExecutionSuspended;
        assert IsLatest(events, n - 1, i);
      }
    }
  }

  lemma {:induction false} OpenFoldIsLatest(events: seq<Event>, n: nat)
    requires n <= |events| && !IsTerminal(FoldUpTo(events, n))
    ensures FoldUpTo(events, n) == Suspended <==> SuspendedLast(events, n)
  {
    if n > 0 {
      OpenFoldIsLatest(events, n - 1);
      LatestStep(events, n);
    }
  }

  /**
   The fold says suspended exactly when nothing has ended the execution and the
   backward scan finds a suspension. The scan alone does not say so: it passes over
   an uncertain effect, and an execution that has ended may be started again.
   */
  lemma SuspendedExactlyWhen(events: seq<Event>, n: nat)
    requires n <= |events|
    ensures FoldUpTo(events, n) == Suspended <==> !HasEnded(events, n) && SuspendedLast(events, n)
  {
    EndedIsTerminal(events, n);
    if !IsTerminal(FoldUpTo(events, n)) { OpenFoldIsLatest(events, n); }
  }

  /** Fold and scan agree on whether an execution is suspended. */
  ghost predicate Agree(events: seq<Event>) {
    Folded(events) == Suspended <==> SuspendedLast(events, |events|)
  }

  /** They agree unless an execution that has ended has a suspension as its latest lifecycle event. */
  lemma AgreeExactlyWhen(events: seq<Event>)
    ensures Agree(events) <==> !(HasEnded(events, |events|) && SuspendedLast(events, |events|))
  {
    SuspendedExactlyWhen(events, |events|);
  }

  /** A suspension followed by an uncertain effect: the scan finds it, the fold has failed. */
  lemma UncertainEffectDisagrees(events: seq<Event>)
    requires |events| == 2 && events[0].kind == ExecutionSuspended && events[1].kind == EffectUncertain
    ensures SuspendedLast(events, 2) && Folded(events) == Failed && !Agree(events)
  {
    assert FoldUpTo(events, 0) == New;
    assert FoldUpTo(events, 1) == Suspended;
    assert IsLatest(events, 2, 0);
  }

  /** Nothing that bears on the state has happened to a new execution. */
  lemma {:induction false} NewIsUntouched(events: seq<Event>, n: nat, i: nat)
    requires i < n <= |events| && FoldUpTo(events, n) == New
    ensures !IsLifecycle(events[i].kind)
  {
    if i < n - 1 { NewIsUntouched(events, n - 1, i); }
  }

  // -------------------------------------------------------------------- over a log

  function Stored(log: seq<Event>, execution: string): ExecutionState {
    Folded(EventsOf(log, execution, 0))
  }

  /** An active execution that is saved as suspended counts as running. */
  function StateOf(log: seq<Event>, active: set<string>, execution: string): ExecutionState {
    var stored := Stored(log, execution);
    if stored == Suspended && execution in active then Running else stored
  }

  lemma {:induction false} MatchingExtends(log: seq<Event>, m: nat, n: nat, query: Query)
    requires m <= n <= |log|
    ensures MatchingUpTo(log, m, query) <= MatchingUpTo(log, n, query)
  {
    if m < n { MatchingExtends(log, m, n - 1, query); }
  }

  lemma EventsOfGrow(log: seq<Event>, longer: seq<Event>, execution: string)
    requires log <= longer
    ensures EventsOf(log, execution, 0) <= EventsOf(longer, execution, 0)
  {
    var query := Query(Some(execution), None, 0, None, PAGE_LIMIT);
    MatchingIsStable(log, longer, |log|, query);
    MatchingExtends(longer, |log|, |longer|, query);
  }

  /** A terminal execution stays as it is, however the log grows and whoever is active. */
  lemma TerminalForever(log: seq<Event>, longer: seq<Event>, active: set<string>, later: set<string>, execution: string)
    requires log <= longer && IsTerminal(StateOf(log, active, execution))
    ensures StateOf(longer, later, execution) == StateOf(log, active, execution)
  {
    var events, more := EventsOf(log, execution, 0), EventsOf(longer, execution, 0);
    EventsOfGrow(log, longer, execution);
    FoldOfPrefix(events, more, |events|);
    TerminalIsFinal(more, |events|, |more|);
  }

  lemma EventsOfAppended(log: seq<Event>, event: Event, execution: string)
    requires event.executionId == execution && event.cursor == |log| + 1
    ensures EventsOf(log + [event], execution, 0) == EventsOf(log, execution, 0) + [event]
  {
    MatchingIsStable(log, log + [event], |log|, Query(Some(execution), None, 0, None, PAGE_LIMIT));
  }

  /** An event appended to an execution that has not ended moves its state. */
  lemma AppendedMoves(log: seq<Event>, event: Event, execution: string)
    requires event.executionId == execution && event.cursor == |log| + 1 && !IsTerminal(Stored(log, execution))
    ensures Stored(log + [event], execution) == After(Stored(log, execution), event.kind)
  {
    var events, more := EventsOf(log, execution, 0), EventsOf(log + [event], execution, 0);
    EventsOfAppended(log, event, execution);
    FoldOfPrefix(events, more, |events|);
  }

  /** An event of this execution and kind is in the log. */
  ghost predicate Happened(log: seq<Event>, execution: string, kind: Kind) {
    exists e :: e in log && e.executionId == execution && e.kind == kind
  }

  lemma HappenedIsListed(log: seq<Event>, execution: string, kind: Kind) returns (i: nat)
    requires WellFormed(log) && Happened(log, execution, kind)
    ensures i < |EventsOf(log, execution, 0)| && EventsOf(log, execution, 0)[i].kind == kind
  {
    var e :| e in log && e.executionId == execution && e.kind == kind;
    EventsOfIsExact(log, execution, 0);
    i :| i < |EventsOf(log, execution, 0)| && EventsOf(log, execution, 0)[i] == e;
  }

  lemma NewHasNotStarted(log: seq<Event>, execution: string)
    requires WellFormed(log) && Stored(log, execution) == New
    ensures !Happened(log, execution, ExecutionStarted)
  {
    if Happened(log, execution, ExecutionStarted) {
      var i := HappenedIsListed(log, execution, ExecutionStarted);
      NewIsUntouched(EventsOf(log, execution, 0), |EventsOf(log, execution, 0)|, i);
    }
  }

  lemma OpenIsNotCancelled(log: seq<Event>, execution: string)
    requires WellFormed(log) && !IsTerminal(Stored(log, execution))
    ensures !Happened(log, execution, ExecutionCancelled)
  {
    if Happened(log, execution, ExecutionCancelled) {
      var i := HappenedIsListed(log, execution, ExecutionCancelled);
      EndedIsTerminal(EventsOf(log, execution, 0), |EventsOf(log, execution, 0)|);
    }
  }

  // ---------------------------------------------------------------- the coordinator

  function FactOf(key: ExecutionKey, id: EventId, kind: Kind, payload: Payload): Event {
    Event(id, key.turnId, key.executionId, 0, kind, id, payload)
  }

  /** The same fact is in the log, under its identity. */
  ghost predicate IsRecorded(log: seq<Event>, fact: Event) {
    exists e :: e in log && e.eventId == fact.eventId && SameFact(e, fact)
  }

  /** One fact more, or none because it was there already. */
  ghost predicate OnceMore(log: seq<Event>, longer: seq<Event>, fact: Event) {
    (longer == log && IsRecorded(log, fact)) || longer == log + [fact.(cursor := |log| + 1)]
  }

  function LastCursor(log: seq<Event>, execution: string): nat {
    var events := EventsOf(log, execution, 0);
    if events == [] then 0 else events[|events| - 1].cursor
  }

  /** The fact that readmits an execution at its latest cursor. */
  function ReadmissionFact(log: seq<Event>, key: ExecutionKey, recovery: bool): Event {
    FactOf(key, ReadmissionId(key.executionId, recovery, LastCursor(log, key.executionId)), ExecutionStarted, NoPayload)
  }

  /** The fact can be recorded: it is there already, or nothing has its identity or key. */
  predicate Recordable(log: seq<Event>, fact: Event) {
    var found := Find(log, fact.eventId);
    if found.Some? then SameFact(found.value, fact) else !IsTaken(log, fact)
  }

  /** The log with the fact, unless something has its identity or key. */
  function LogWith(log: seq<Event>, fact: Event): seq<Event> {
    if IsTaken(log, fact) then log else log + [fact.(cursor := |log| + 1)]
  }

  /** What a recorded fact makes of an execution that has not ended. */
  lemma Recorded(log: seq<Event>, longer: seq<Event>, fact: Event)
    requires OnceMore(log, longer, fact) && !IsTerminal(Stored(log, fact.executionId))
    ensures log <= longer
    ensures longer == log ==> Happened(log, fact.executionId, fact.kind)
    ensures longer != log ==> Stored(longer, fact.executionId) == After(Stored(log, fact.executionId), fact.kind)
  {
    if longer != log { AppendedMoves(log, fact.(cursor := |log| + 1), fact.executionId); }
  }
}
