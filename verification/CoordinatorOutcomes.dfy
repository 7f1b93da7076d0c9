/**
 What an execution's state and the coordinator's records are, said of the ledger's
 events themselves: which event decides the state, and which event an operation leaves.
 */
module CoordinatorOutcomes {
  import opened Wrappers
  import opened LedgerTypes
  import opened Ledger
  import opened Coordinator

  // ------------------------------------------------------------------- the state

  /** The state an event of this kind puts an execution into that has not ended; new for a kind that does not bear on it. */
  function MoveOf(kind: Kind): ExecutionState {
    if kind == ExecutionStarted || kind == TurnCheckpointPrepared || kind == TurnCheckpointMerged then Running
    else if kind == ExecutionSuspended then Suspended
    else if kind == TurnCompleted then Completed
    else if kind == ExecutionCancelled || kind == TurnCancelled then Cancelled
    else if kind == TurnFailed || kind == TurnTimedOut || kind == EffectUncertain then Failed
    else New
  }

  function MovesOf(events: seq<Event>): (moves: seq<ExecutionState>)
    ensures |moves| == |events| && forall k :: 0 <= k < |events| ==> moves[k] == MoveOf(events[k].kind)
  {
    seq(|events|, k requires 0 <= k < |events| => MoveOf(events[k].kind))
  }

  predicate IsEnd(move: ExecutionState) {
    move == Completed || move == Cancelled || move == Failed
  }

  ghost predicate NoEnd(moves: seq<ExecutionState>, n: nat)
    requires n <= |moves|
  {
    forall k :: 0 <= k < n ==> !IsEnd(moves[k])
  }

  ghost predicate NoMove(moves: seq<ExecutionState>, m: nat, n: nat)
    requires n <= |moves|
  {
    forall k :: m <= k < n ==> moves[k] == New
  }

  /** Event `i` decides the state: it is the first that ends the execution, or the last move of one that has not ended. */
  ghost predicate Decides(moves: seq<ExecutionState>, n: nat, i: int)
    requires n <= |moves|
  {
    && 0 <= i < n && moves[i] != New
    && if IsEnd(moves[i]) then NoEnd(moves, i) else NoEnd(moves, n) && NoMove(moves, i + 1, n)
  }

  /** The state after the first `n` events: what the deciding event says, new without one. */
  ghost predicate IsFolded(moves: seq<ExecutionState>, n: nat, state: ExecutionState)
    requires n <= |moves|
  {
    if state == New then NoMove(moves, 0, n)
    else exists i :: Decides(moves, n, i) && moves[i] == state
  }

  lemma AfterMoves(state: ExecutionState, kind: Kind)
    ensures After(state, kind) == if MoveOf(kind) == New then state else MoveOf(kind)
  {
  }

  /** One event more: an end stays, any other state gives way to the next move. */
  lemma FoldedStep(moves: seq<ExecutionState>, n: nat, earlier: ExecutionState, state: ExecutionState)
    requires 0 < n <= |moves| && IsFolded(moves, n - 1, earlier) && (IsEnd(earlier) || NoEnd(moves, n - 1))
    requires state == if IsEnd(earlier) || moves[n - 1] == New then earlier else moves[n - 1]
    ensures IsFolded(moves, n, state) && (IsEnd(state) || NoEnd(moves, n))
  {
    if !IsEnd(earlier) && moves[n - 1] != New {
      assert Decides(moves, n, n - 1);
    } else if earlier != New {
      var i :| Decides(moves, n - 1, i) && moves[i] == earlier;
      assert Decides(moves, n, i);
    }
  }

  lemma FoldStep(events: seq<Event>, n: nat)
    requires 0 < n <= |events|
    ensures var earlier, move := FoldUpTo(events, n - 1), MoveOf(events[n - 1].kind);
            FoldUpTo(events, n) == if IsEnd(earlier) || move == New then earlier else move
  {
    AfterMoves(FoldUpTo(events, n - 1), events[n - 1].kind);
  }

  /** The fold is what the events say, and goes on only while nothing has ended. */
  ghost predicate FoldOk(events: seq<Event>, moves: seq<ExecutionState>, n: nat)
    requires n <= |events| == |moves|
  {
    IsFolded(moves, n, FoldUpTo(events, n)) && (IsEnd(FoldUpTo(events, n)) || NoEnd(moves, n))
  }

  lemma FoldGrows(events: seq<Event>, moves: seq<ExecutionState>, n: nat)
    requires 0 < n <= |events| && moves == MovesOf(events) && FoldOk(events, moves, n - 1)
    ensures FoldOk(events, moves, n)
  {
    FoldStep(events, n);
    FoldedStep(moves, n, FoldUpTo(events, n - 1), FoldUpTo(events, n));
  }

  lemma {:induction false} FoldIsFolded(events: seq<Event>, moves: seq<ExecutionState>, n: nat)
    requires n <= |events| && moves == MovesOf(events)
    ensures FoldOk(events, moves, n)
  {
    if n == 0 {
      FoldBegins(events, moves);
    } else {
      FoldIsFolded(events, moves, n - 1);
      FoldGrows(events, moves, n);
    }
  }

  lemma FoldBegins(events: seq<Event>, moves: seq<ExecutionState>)
    requires |moves| == |events|
    ensures FoldOk(events, moves, 0)
  {
  }

  lemma DecidesFirst(moves: seq<ExecutionState>, n: nat, i: int, j: int)
    requires n <= |moves| && Decides(moves, n, i) && Decides(moves, n, j)
    ensures i <= j
  {
  }

  lemma FoldedIsUnique(moves: seq<ExecutionState>, n: nat, s: ExecutionState, t: ExecutionState)
    requires n <= |moves| && IsFolded(moves, n, s) && IsFolded(moves, n, t)
    ensures s == t
  {
    if s != New && t != New {
      var i :| Decides(moves, n, i) && moves[i] == s;
      var j :| Decides(moves, n, j) && moves[j] == t;
      DecidesFirst(moves, n, i, j);
      DecidesFirst(moves, n, j, i);
    }
  }

  /**
   An execution is completed, cancelled or failed as the first event says that ended
   it; otherwise it is running or suspended as the latest event says that moved it,
   and new if none did.
   */
  lemma FoldedExactlyWhen(events: seq<Event>, n: nat, state: ExecutionState)
    requires n <= |events|
    ensures FoldUpTo(events, n) == state <==> IsFolded(MovesOf(events), n, state)
  {
    FoldIsFolded(events, MovesOf(events), n);
    if IsFolded(MovesOf(events), n, state) { FoldedIsUnique(MovesOf(events), n, state, FoldUpTo(events, n)); }
  }

  /** The public state: an owned execution that is saved as suspended is running. */
  lemma StateExactlyWhen(log: seq<Event>, active: set<string>, execution: string, state: ExecutionState)
    ensures var moves := MovesOf(EventsOf(log, execution, 0));
            StateOf(log, active, execution) == state
            <==> || (state != Suspended && IsFolded(moves, |moves|, state))
                 || (state == Suspended && IsFolded(moves, |moves|, Suspended) && execution !in active)
                 || (state == Running && IsFolded(moves, |moves|, Suspended) && execution in active)
  {
    var events := EventsOf(log, execution, 0);
    FoldedExactlyWhen(events, |events|, state);
    FoldedExactlyWhen(events, |events|, Suspended);
  }

  /** The scan for a suspension stops at every kind that moves the state but an uncertain effect. */
  lemma LifecycleExactlyWhen(kind: Kind)
    ensures IsLifecycle(kind) <==> MoveOf(kind) != New && kind != EffectUncertain
    ensures EndsExecution(kind) <==> IsEnd(MoveOf(kind))
  {
  }

  // ----------------------------------------------------------------- the records

  /** The fact is in the log under its identity. */
  ghost predicate Has(log: seq<Event>, id: EventId, key: ExecutionKey, kind: Kind, payload: Payload) {
    exists e :: e in log && e.eventId == id && e.turnId == key.turnId && e.executionId == key.executionId
                && e.kind == kind && e.payload == payload
  }

  /** No event has this identity, nor is filed under it. */
  ghost predicate IsUnused(log: seq<Event>, id: EventId) {
    forall e :: e in log ==> e.eventId != id && e.idempotencyKey != id
  }

  /** The log has grown by this fact alone, filed under its own identity. */
  ghost predicate IsAdded(log: seq<Event>, longer: seq<Event>, id: EventId, key: ExecutionKey, kind: Kind, payload: Payload) {
    longer == log + [Event(id, key.turnId, key.executionId, |log| + 1, kind, id, payload)]
  }

  /** The fact is there afterwards: it is added if it was not there before. */
  ghost predicate IsKept(log: seq<Event>, longer: seq<Event>, id: EventId, key: ExecutionKey, kind: Kind, payload: Payload) {
    if Has(log, id, key, kind, payload) then longer == log
    else IsUnused(log, id) && IsAdded(log, longer, id, key, kind, payload)
  }

  lemma UnusedExactlyWhen(log: seq<Event>, fact: Event)
    requires fact.idempotencyKey == fact.eventId
    ensures IsTaken(log, fact) <==> !IsUnused(log, fact.eventId)
  {
    if IsTaken(log, fact) {
      var i :| 0 <= i < |log| && (log[i].eventId == fact.eventId || log[i].idempotencyKey == fact.idempotencyKey);
      assert log[i] in log;
    }
  }

  /** A fact can be recorded exactly if it is there already or its identity is unused. */
  lemma RecordableExactlyWhen(log: seq<Event>, key: ExecutionKey, id: EventId, kind: Kind, payload: Payload)
    requires WellFormed(log)
    ensures var fact := FactOf(key, id, kind, payload);
            && (Recordable(log, fact) <==> Has(log, id, key, kind, payload) || IsUnused(log, id))
            && (Recordable(log, fact) ==> IsKept(log, LogWith(log, fact), id, key, kind, payload))
            && (IsTaken(log, fact) <==> !IsUnused(log, id))
  {
    var fact := FactOf(key, id, kind, payload);
    UnusedExactlyWhen(log, fact);
    var found := Find(log, id);
    if found.Some? {
      var i :| 0 <= i < |log| && log[i] == found.value && log[i].eventId == id;
      assert log[i] in log;
      if Has(log, id, key, kind, payload) {
        var e :| e in log && e.eventId == id && e.turnId == key.turnId && e.executionId == key.executionId
                 && e.kind == kind && e.payload == payload;
        var j :| 0 <= j < |log| && log[j] == e;
        assert i == j;
      }
    }
  }

  /** The cursor of an execution's latest event, 0 without one. */
  ghost predicate IsLatestCursor(log: seq<Event>, execution: string, cursor: nat) {
    && (forall e :: e in log && e.executionId == execution ==> e.cursor <= cursor)
    && (cursor == 0 || exists e :: e in log && e.executionId == execution && e.cursor == cursor)
  }

  lemma LatestCursorExactlyWhen(log: seq<Event>, execution: string, cursor: nat)
    requires WellFormed(log)
    ensures LastCursor(log, execution) == cursor <==> IsLatestCursor(log, execution, cursor)
  {
    EventsOfIsExact(log, execution, 0);
    var events := EventsOf(log, execution, 0);
    if events != [] {
      assert events[|events| - 1] in log;
    }
    assert IsLatestCursor(log, execution, LastCursor(log, execution));
  }

  /** The fact can be recorded: it is there, or its identity is unused. */
  ghost predicate IsOpen(log: seq<Event>, id: EventId, key: ExecutionKey, kind: Kind, payload: Payload) {
    Has(log, id, key, kind, payload) || IsUnused(log, id)
  }

  /**
   Recording that the execution runs and taking it: the fact is kept and the execution
   owned, unless it is owned already; a different fact under the identity stops it first.
   */
  ghost predicate IsTakingOf(log: seq<Event>, active: set<string>, id: EventId, key: ExecutionKey, payload: Payload,
                             r: Result<(), CoordinatorError>, longer: seq<Event>, after: set<string>) {
    if IsOpen(log, id, key, ExecutionStarted, payload) then
      && IsKept(log, longer, id, key, ExecutionStarted, payload)
      && r == (if key.executionId in active then Err(AlreadyActive) else Ok(()))
      && after == active + {key.executionId}
    else r == Err(LedgerFailure(Conflict(id))) && longer == log && after == active
  }

  /** The same under the identity made from the execution's latest cursor. */
  ghost predicate IsReadmission(log: seq<Event>, active: set<string>, recovery: bool, key: ExecutionKey,
                                r: Result<(), CoordinatorError>, longer: seq<Event>, after: set<string>) {
    exists cursor: nat :: IsLatestCursor(log, key.executionId, cursor)
      && IsTakingOf(log, active, ReadmissionId(key.executionId, recovery, cursor), key, NoPayload, r, longer, after)
  }

  /** Cancelling: the fact is kept and the execution given up, or a different fact under the identity stops it. */
  ghost predicate IsCancelling(log: seq<Event>, active: set<string>, key: ExecutionKey,
                               r: Result<(), CoordinatorError>, longer: seq<Event>, after: set<string>) {
    var id := CancelledId(key.executionId);
    if IsOpen(log, id, key, ExecutionCancelled, NoPayload) then
      r == Ok(()) && IsKept(log, longer, id, key, ExecutionCancelled, NoPayload) && after == active - {key.executionId}
    else r == Err(LedgerFailure(Conflict(id))) && longer == log && after == active
  }
}
