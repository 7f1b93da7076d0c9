/**
 When an execution that has ended can still become owned: exactly while a caller that
 read it earlier is on its way to its admission.
 */
module CoordinatorRaces {
  import opened Wrappers
  import opened LedgerTypes
  import opened Ledger
  import opened Coordinator
  import opened CoordinatorProtocol
  import opened CoordinatorSafety

  /** The fact can still be recorded: nothing has its identity, or the same fact has. */
  predicate Open(log: seq<Event>, fact: Event) {
    Find(log, fact.eventId).None? || Saved(log, fact)
  }

  /** The caller read this execution earlier and nothing in the ledger bars its admission. */
  predicate OnItsWay(log: seq<Event>, c: Caller, execution: string) {
    && c.key.executionId == execution && !c.op.CancelOp?
    && match c.pc
       case ReadActive => !c.op.StartOp?
       case ReadCursor => true
       case Lookup(fact) => Open(log, fact)
       case WriteFact(fact) => Open(log, fact)
       case Recheck(fact) => Saved(log, fact)
       case Admitting => true
       case _ => false
  }

  // ------------------------------------------------------------- nobody on its way

  ghost predicate NobodyOnItsWay(s: State, execution: string) {
    && IsTerminal(Stored(s.log, execution)) && execution !in s.active
    && forall id :: id in s.callers ==> !OnItsWay(s.log, s.callers[id], execution)
  }

  lemma BarredStays(log: seq<Event>, longer: seq<Event>, c: Caller, execution: string)
    requires log <= longer && PcOk(log, c) && !OnItsWay(log, c, execution)
    ensures !OnItsWay(longer, c, execution)
  {
    match c.pc
    case Lookup(fact) => if Find(log, fact.eventId).Some? { FindIsStable(log, longer, fact.eventId); }
    case WriteFact(fact) => if Find(log, fact.eventId).Some? { FindIsStable(log, longer, fact.eventId); }
    case Recheck(fact) => FindIsStable(log, longer, fact.eventId);
    case _ =>
  }

  /** A read of an execution that has ended sets nobody on its way. */
  lemma ReadSetsNobody(log: seq<Event>, active: set<string>, c: Caller, execution: string)
    requires IsTerminal(Stored(log, execution)) && !OnItsWay(log, c, execution)
    requires !c.pc.Admitting? && !c.pc.Releasing? && !c.pc.WriteFact?
    ensures !OnItsWay(log, ReadStep(log, active, c), execution)
  {
  }

  lemma WriteSetsNobody(log: seq<Event>, c: Caller, fact: Event, execution: string)
    requires LogOk(log) && PcOk(log, c) && c.pc == WriteFact(fact) && !OnItsWay(log, c, execution)
    ensures !OnItsWay(WriteStep(log, c, fact).0, WriteStep(log, c, fact).1, execution)
  {
    TakenIsFound(log, fact);
  }

  lemma StepSetsNobody(s: State, id: nat, execution: string)
    requires Inv(s) && NobodyOnItsWay(s, execution) && id in s.callers
    ensures NobodyOnItsWay(Stepped(s, id), execution)
  {
    var t, c := Stepped(s, id), s.callers[id];
    StepKeeps(s, id);
    TerminalForever(s.log, t.log, {}, {}, execution);
    assert PcOk(s.log, c);
    if c.pc.WriteFact? { WriteSetsNobody(s.log, c, c.pc.fact, execution); }
    else if !c.pc.Admitting? && !c.pc.Releasing? { ReadSetsNobody(s.log, s.active, c, execution); }
    assert !OnItsWay(t.log, t.callers[id], execution);
    OthersBarred(s, t, id, execution);
  }

  lemma OthersBarred(s: State, t: State, id: nat, execution: string)
    requires Inv(s) && NobodyOnItsWay(s, execution) && s.log <= t.log
    requires id in t.callers && t.callers == s.callers[id := t.callers[id]] && !OnItsWay(t.log, t.callers[id], execution)
    ensures forall other :: other in t.callers ==> !OnItsWay(t.log, t.callers[other], execution)
  {
    forall other | other in t.callers ensures !OnItsWay(t.log, t.callers[other], execution) {
      if other != id {
        assert PcOk(s.log, s.callers[other]);
        BarredStays(s.log, t.log, s.callers[other], execution);
      }
    }
  }

  lemma NextSetsNobody(s: State, action: Action, execution: string)
    requires Inv(s) && NobodyOnItsWay(s, execution)
    ensures NobodyOnItsWay(Next(s, action), execution)
  {
    var t := Next(s, action);
    match action
    case Step(id) => if id in s.callers { StepSetsNobody(s, id, execution); }
    case Foreign(_, _) =>
      NextKeeps(s, action);
      TerminalForever(s.log, t.log, {}, {}, execution);
      forall id | id in t.callers ensures !OnItsWay(t.log, t.callers[id], execution) {
        assert PcOk(s.log, s.callers[id]);
        BarredStays(s.log, t.log, s.callers[id], execution);
      }
    case _ =>
  }

  ghost predicate Barred(s: State, execution: string) {
    Inv(s) && NobodyOnItsWay(s, execution)
  }

  lemma NextStaysBarred(s: State, action: Action, execution: string)
    requires Barred(s, execution)
    ensures Barred(Next(s, action), execution)
  {
    NextKeeps(s, action);
    NextSetsNobody(s, action, execution);
  }

  /** Then it is never owned again, whatever callers come and whatever others write. */
  lemma {:induction false} NeverOwnedAgain(s: State, later: seq<Action>, n: nat, execution: string)
    requires Barred(s, execution) && n <= |later|
    ensures Barred(RunUpTo(s, later, n), execution)
  {
    if n > 0 {
      NeverOwnedAgain(s, later, n - 1, execution);
      NextStaysBarred(RunUpTo(s, later, n - 1), later[n - 1], execution);
    }
  }

  // -------------------------------------------------------------- somebody on its way

  lemma {:induction false} RunJoins(s: State, action: Action, rest: seq<Action>, n: nat)
    requires n <= |rest|
    ensures RunUpTo(s, [action] + rest, n + 1) == RunUpTo(Next(s, action), rest, n)
  {
    if n == 0 {
      assert RunUpTo(s, [action] + rest, 0) == s;
    } else {
      RunJoins(s, action, rest, n - 1);
      assert ([action] + rest)[n] == rest[n - 1];
    }
  }

  /** What follows an action and leads to ownership leads there with the action in front. */
  lemma WithAction(s: State, action: Action, t: State, rest: seq<Action>, execution: string)
    requires t == Next(s, action) && execution in Run(t, rest).active
    ensures execution in Run(s, [action] + rest).active
  {
    RunJoins(s, action, rest, |rest|);
    assert |[action] + rest| == |rest| + 1;
  }

  /** The last step of a caller on its way. */
  lemma AdmittedNext(s: State, id: nat, execution: string)
    requires id in s.callers && s.callers[id].pc.Admitting? && s.callers[id].key.executionId == execution
    requires execution !in s.active
    ensures execution in Run(s, [Step(id)]).active
  {
    assert RunUpTo(s, [Step(id)], 0) == s;
  }

  /** A caller on its way is one step nearer after its own step, unless it reads the cursor. */
  lemma NearerByStep(s: State, id: nat, execution: string)
    requires Inv(s) && id in s.callers && OnItsWay(s.log, s.callers[id], execution) && execution !in s.active
    requires !s.callers[id].pc.Admitting? && !s.callers[id].pc.ReadCursor?
    ensures var t := Stepped(s, id);
            && id in t.callers && OnItsWay(t.log, t.callers[id], execution) && t.active == s.active
            && Rank(t.callers[id].pc) < Rank(s.callers[id].pc)
  {
    var c := s.callers[id];
    assert PcOk(s.log, c);
    match c.pc
    case WriteFact(fact) => TakenIsFound(s.log, fact);
    case Recheck(fact) =>
      var i :| 0 <= i < |s.log| && s.log[i] == Find(s.log, fact.eventId).value && s.log[i].eventId == fact.eventId;
    case _ =>
  }

  /** An event nobody has written yet, which moves the execution's latest cursor to the end. */
  function Filler(log: seq<Event>, key: ExecutionKey): Event {
    FactOf(key, ReadmissionId(key.executionId, true, |log|), StepStarted, NoPayload)
  }

  lemma FillerMovesCursor(log: seq<Event>, key: ExecutionKey)
    requires LogOk(log)
    ensures var appended := Appended(log, Filler(log, key), false);
            && appended.Ok? && ForeignAllowed(log, Filler(log, key))
            && LastCursor(appended.value, key.executionId) == |log| + 1
  {
    assert !IsTaken(log, Filler(log, key));
    EventsOfAppended(log, Filler(log, key).(cursor := |log| + 1), key.executionId);
  }

  /** The next cursor's readmission is new. */
  lemma ReadmissionIsNew(log: seq<Event>, execution: string, recovery: bool)
    requires LogOk(log)
    ensures Find(log, ReadmissionId(execution, recovery, |log|)).None?
  {
  }

  lemma CursorIsRead(s: State, id: nat, execution: string) returns (filler: Action, t: State)
    requires Inv(s) && id in s.callers && s.callers[id].pc.ReadCursor? && OnItsWay(s.log, s.callers[id], execution)
    requires execution !in s.active
    ensures t == Next(Next(s, filler), Step(id))
    ensures Inv(t) && id in t.callers && OnItsWay(t.log, t.callers[id], execution) && execution !in t.active
    ensures t.callers[id].pc.Lookup?
  {
    var key := s.callers[id].key;
    filler := Foreign(Filler(s.log, key), false);
    var moved := Next(s, filler);
    FillerMovesCursor(s.log, key);
    NextKeeps(s, filler);
    t := Next(moved, Step(id));
    NextKeeps(moved, Step(id));
    ReadmissionIsNew(moved.log, execution, s.callers[id].op.RecoverOp?);
  }

  /** A caller on its way can be admitted. */
  lemma {:induction false} CanBeAdmitted(s: State, id: nat, execution: string) returns (later: seq<Action>)
    requires Inv(s) && id in s.callers && OnItsWay(s.log, s.callers[id], execution) && execution !in s.active
    ensures execution in Run(s, later).active
    decreases Rank(s.callers[id].pc)
  {
    if s.callers[id].pc.Admitting? {
      AdmittedNext(s, id, execution);
      later := [Step(id)];
    } else if s.callers[id].pc.ReadCursor? {
      var filler, t := CursorIsRead(s, id, execution);
      var rest := CanBeAdmitted(t, id, execution);
      WithAction(Next(s, filler), Step(id), t, rest, execution);
      WithAction(s, filler, Next(s, filler), [Step(id)] + rest, execution);
      later := [filler] + ([Step(id)] + rest);
    } else {
      NearerByStep(s, id, execution);
      StepKeeps(s, id);
      var t := Stepped(s, id);
      var rest := CanBeAdmitted(t, id, execution);
      WithAction(s, Step(id), t, rest, execution);
      later := [Step(id)] + rest;
    }
  }

  ghost predicate CanBeOwned(s: State, execution: string) {
    exists later :: execution in Run(s, later).active
  }

  ghost predicate SomebodyOnItsWay(s: State, execution: string) {
    exists id :: id in s.callers && OnItsWay(s.log, s.callers[id], execution)
  }

  /**
   An execution that has ended and is not owned, as after a completed cancel, can become
   owned again exactly while some start, resume, recovery or direct admission that read it
   before it ended is on its way and its record, if it makes one, does not conflict.
   */
  lemma EndedCanBeOwnedExactlyWhen(actions: seq<Action>, s: State, execution: string)
    requires s == Run(INITIAL, actions) && IsTerminal(Stored(s.log, execution)) && execution !in s.active
    ensures CanBeOwned(s, execution) <==> SomebodyOnItsWay(s, execution)
  {
    ReachableIsOk(actions, s);
    if SomebodyOnItsWay(s, execution) {
      var id :| id in s.callers && OnItsWay(s.log, s.callers[id], execution);
      var later := CanBeAdmitted(s, id, execution);
    } else {
      forall later ensures execution !in Run(s, later).active { NeverOwnedAgain(s, later, |later|, execution); }
    }
  }

  // -------------------------------------------------------------- two callers that race

  /** Caller zero is about to take the execution, caller one is at work, and nobody owns anything. */
  function Race(log: seq<Event>, c0: Caller, c1: Caller): State {
    State(log, {}, map[0 := c0, 1 := c1], [])
  }

  lemma RaceReads(log: seq<Event>, c0: Caller, c1: Caller, d: Caller)
    requires !c1.pc.WriteFact? && !c1.pc.Admitting? && !c1.pc.Releasing? && ReadStep(log, {}, c1) == d
    ensures Next(Race(log, c0, c1), Step(1)) == Race(log, c0, d)
  {
    assert Race(log, c0, c1).callers[1 := d] == Race(log, c0, d).callers;
  }

  /** Caller one records a fact that is new. */
  lemma RaceRecords(log: seq<Event>, c0: Caller, c1: Caller, fact: Event, longer: seq<Event>)
    requires c1.pc == Lookup(fact) && Find(log, fact.eventId).None? && Appended(log, fact, false) == Ok(longer)
    ensures Next(Next(Race(log, c0, c1), Step(1)), Step(1)) == Race(longer, c0, c1.(pc := AfterFact(c1.op)))
  {
    RaceReads(log, c0, c1, c1.(pc := WriteFact(fact)));
    assert Race(log, c0, c1).callers[1 := c1.(pc := AfterFact(c1.op))] == Race(longer, c0, c1.(pc := AfterFact(c1.op))).callers;
  }

  /** Caller one takes or releases the execution; then caller zero goes on. */
  lemma RaceSettles(log: seq<Event>, c0: Caller, c1: Caller)
    requires c0.pc.Admitting? && c0.key == c1.key && (c1.pc.Admitting? || c1.pc.Releasing?)
    ensures var s := Next(Next(Race(log, c0, c1), Step(1)), Step(0));
            && s.log == log && s.active == {c1.key.executionId}
            && s.callers == map[0 := c0.(pc := Done(if c1.pc.Admitting? then Err(AlreadyActive) else Ok(()))),
                                1 := c1.(pc := Done(Ok(())))]
  {
  }

  /** One action more. */
  lemma Passes(actions: seq<Action>, n: nat, s: State, t: State)
    requires n < |actions| && RunUpTo(INITIAL, actions, n) == s && Next(s, actions[n]) == t
    ensures RunUpTo(INITIAL, actions, n + 1) == t
  {
  }

  /** Caller zero is about to take the execution after four actions, and these go on. */
  ghost predicate Begins(actions: seq<Action>, op: Op, log: seq<Event>, c0: Caller) {
    && |actions| >= 5 && actions[4] == Spawn(1, op, c0.key)
    && RunUpTo(INITIAL, actions, 4) == State(log, {}, map[0 := c0], [])
  }

  lemma SecondComes(actions: seq<Action>, op: Op, log: seq<Event>, c0: Caller)
    requires Begins(actions, op, log, c0)
    ensures RunUpTo(INITIAL, actions, 5) == Race(log, c0, Fresh(op, c0.key))
  {
  }

  /** Once caller one knows what to record, four actions end the race. */
  lemma RaceEnds(actions: seq<Action>, n: nat, log: seq<Event>, c0: Caller, c1: Caller, fact: Event, longer: seq<Event>)
    requires |actions| == n + 4 && actions[n] == actions[n + 1] == actions[n + 2] == Step(1) && actions[n + 3] == Step(0)
    requires RunUpTo(INITIAL, actions, n) == Race(log, c0, c1)
    requires c1.pc == Lookup(fact) && Find(log, fact.eventId).None? && Appended(log, fact, false) == Ok(longer)
    requires c0.pc.Admitting? && c0.key == c1.key
    ensures var s := Run(INITIAL, actions);
            && s.log == longer && s.active == {c0.key.executionId}
            && s.callers == map[0 := c0.(pc := Done(if c1.op.CancelOp? then Ok(()) else Err(AlreadyActive))),
                                1 := c1.(pc := Done(Ok(())))]
  {
    var s0, s2 := Race(log, c0, c1), Race(longer, c0, c1.(pc := AfterFact(c1.op)));
    RaceRecords(log, c0, c1, fact, longer);
    Passes(actions, n, s0, Next(s0, Step(1)));
    Passes(actions, n + 1, Next(s0, Step(1)), s2);
    RaceSettles(longer, c0, c1.(pc := AfterFact(c1.op)));
    Passes(actions, n + 2, s2, Next(s2, Step(1)));
    Passes(actions, n + 3, Next(s2, Step(1)), Next(Next(s2, Step(1)), Step(0)));
  }

  /** Caller one reads on by one action. */
  lemma RacePasses(actions: seq<Action>, n: nat, log: seq<Event>, c0: Caller, c1: Caller, d: Caller)
    requires n < |actions| && actions[n] == Step(1) && RunUpTo(INITIAL, actions, n) == Race(log, c0, c1)
    requires !c1.pc.WriteFact? && !c1.pc.Admitting? && !c1.pc.Releasing? && ReadStep(log, {}, c1) == d
    ensures RunUpTo(INITIAL, actions, n + 1) == Race(log, c0, d)
  {
    RaceReads(log, c0, c1, d);
  }

  // ------------------------------------------------------------- a start, and a second caller

  /** A start that has recorded the execution, a second caller that does all it does, and the start goes on. */
  function OvertakenCancel(key: ExecutionKey): seq<Action> {
    [Spawn(0, StartOp, key), Step(0), Step(0), Step(0), Spawn(1, CancelOp, key), Step(1), Step(1), Step(1), Step(1), Step(0)]
  }

  function OvertakenStart(key: ExecutionKey): seq<Action> {
    [Spawn(0, StartOp, key), Step(0), Step(0), Step(0),
     Spawn(1, RecoverOp, key), Step(1), Step(1), Step(1), Step(1), Step(1), Step(0)]
  }

  lemma StoredByStart(key: ExecutionKey)
    ensures Stored([], key.executionId) == New
    ensures var start, cancel := StartFact(key).(cursor := 1), CancelFact(key);
            && Stored([start], key.executionId) == Running && Find([start], cancel.eventId).None?
            && Appended([start], cancel, false) == Ok([start, cancel.(cursor := 2)])
            && Stored([start, cancel.(cursor := 2)], key.executionId) == Cancelled
  {
    var start, cancel := StartFact(key).(cursor := 1), CancelFact(key).(cursor := 2);
    assert EventsOf([], key.executionId, 0) == [];
    AppendedMoves([], start, key.executionId);
    assert [] + [start] == [start];
    AppendedMoves([start], cancel, key.executionId);
    assert [start] + [cancel] == [start, cancel];
  }

  lemma StartLooks(key: ExecutionKey)
    requires key.executionId != ""
    ensures Next(State([], {}, map[0 := Fresh(StartOp, key)], []), Step(0))
            == State([], {}, map[0 := Caller(StartOp, key, Lookup(StartFact(key)), 0)], [])
  {
    StoredByStart(key);
  }

  lemma StartWrites(key: ExecutionKey)
    ensures Next(State([], {}, map[0 := Caller(StartOp, key, WriteFact(StartFact(key)), 0)], []), Step(0))
            == State([StartFact(key).(cursor := 1)], {}, map[0 := Caller(StartOp, key, Admitting, 0)], [])
  {
    assert [] + [StartFact(key).(cursor := 1)] == [StartFact(key).(cursor := 1)];
  }

  /** The start's first steps: it has recorded the execution and not yet taken it. */
  lemma StartRecorded(key: ExecutionKey, actions: seq<Action>)
    requires key.executionId != "" && |actions| >= 4 && actions[0] == Spawn(0, StartOp, key)
    requires actions[1] == actions[2] == actions[3] == Step(0)
    ensures RunUpTo(INITIAL, actions, 4)
            == State([StartFact(key).(cursor := 1)], {}, map[0 := Caller(StartOp, key, Admitting, 0)], [])
  {
    assert RunUpTo(INITIAL, actions, 0) == INITIAL;
    assert RunUpTo(INITIAL, actions, 1) == State([], {}, map[0 := Fresh(StartOp, key)], []);
    StartLooks(key);
    assert RunUpTo(INITIAL, actions, 2) == State([], {}, map[0 := Caller(StartOp, key, Lookup(StartFact(key)), 0)], []);
    assert RunUpTo(INITIAL, actions, 3) == State([], {}, map[0 := Caller(StartOp, key, WriteFact(StartFact(key)), 0)], []);
    StartWrites(key);
  }

  lemma CancellationEnds(actions: seq<Action>, n: nat, key: ExecutionKey, c0: Caller)
    requires key.executionId != "" && c0.pc.Admitting? && c0.key == key
    requires |actions| == n + 5 && actions[n + 4] == Step(0) && forall k :: n <= k < n + 4 ==> actions[k] == Step(1)
    requires RunUpTo(INITIAL, actions, n) == Race([StartFact(key).(cursor := 1)], c0, Fresh(CancelOp, key))
    ensures var s := Run(INITIAL, actions);
            && Stored(s.log, key.executionId) == Cancelled && s.active == {key.executionId}
            && s.callers == map[0 := c0.(pc := Done(Ok(()))), 1 := Caller(CancelOp, key, Done(Ok(())), 1)]
  {
    var log, fact := [StartFact(key).(cursor := 1)], CancelFact(key);
    var c1 := Caller(CancelOp, key, Lookup(fact), 1);
    StoredByStart(key);
    RacePasses(actions, n, log, c0, Fresh(CancelOp, key), c1);
    RaceEnds(actions, n + 1, log, c0, c1, fact, [log[0], fact.(cursor := 2)]);
  }

  /** Overtaken by a cancel: both calls succeed, and a cancelled execution is owned. */
  lemma CancelledYetOwned(key: ExecutionKey)
    requires key.executionId != ""
    ensures var s := Run(INITIAL, OvertakenCancel(key));
            && Stored(s.log, key.executionId) == Cancelled && key.executionId in s.active
            && 0 in s.callers && s.callers[0] == Caller(StartOp, key, Done(Ok(())), 0)
            && 1 in s.callers && s.callers[1] == Caller(CancelOp, key, Done(Ok(())), 1)
  {
    var actions, c0 := OvertakenCancel(key), Caller(StartOp, key, Admitting, 0);
    StartRecorded(key, actions);
    SecondComes(actions, CancelOp, [StartFact(key).(cursor := 1)], c0);
    CancellationEnds(actions, 5, key, c0);
  }

  /** What a recovery reads, and that it can record it. */
  lemma RecoveryReads(key: ExecutionKey, log: seq<Event>, fact: Event)
    requires key.executionId != "" && log == [StartFact(key).(cursor := 1)] && fact == ReadmissionFact(log, key, true)
    ensures ReadStep(log, {}, Fresh(RecoverOp, key)) == Caller(RecoverOp, key, ReadCursor, 1)
    ensures ReadStep(log, {}, Caller(RecoverOp, key, ReadCursor, 1)) == Caller(RecoverOp, key, Lookup(fact), 1)
    ensures Find(log, fact.eventId).None? && Appended(log, fact, false) == Ok(log + [fact.(cursor := 2)])
  {
    StoredByStart(key);
  }

  lemma RecoveryEnds(actions: seq<Action>, n: nat, key: ExecutionKey, c0: Caller)
    requires key.executionId != "" && c0.pc.Admitting? && c0.key == key
    requires |actions| == n + 6 && actions[n + 5] == Step(0) && forall k :: n <= k < n + 5 ==> actions[k] == Step(1)
    requires RunUpTo(INITIAL, actions, n) == Race([StartFact(key).(cursor := 1)], c0, Fresh(RecoverOp, key))
    ensures var s := Run(INITIAL, actions);
            && |s.log| == 2 && s.log[0] == StartFact(key).(cursor := 1) && s.active == {key.executionId}
            && s.callers == map[0 := c0.(pc := Done(Err(AlreadyActive))), 1 := Caller(RecoverOp, key, Done(Ok(())), 1)]
  {
    var log := [StartFact(key).(cursor := 1)];
    var fact := ReadmissionFact(log, key, true);
    var c1, c2 := Caller(RecoverOp, key, ReadCursor, 1), Caller(RecoverOp, key, Lookup(fact), 1);
    RecoveryReads(key, log, fact);
    RacePasses(actions, n, log, c0, Fresh(RecoverOp, key), c1);
    RacePasses(actions, n + 1, log, c0, c1, c2);
    RaceEnds(actions, n + 2, log, c0, c2, fact, log + [fact.(cursor := 2)]);
  }

  /** Overtaken by a recovery: the start fails although its own record is in the ledger. */
  lemma StartFailsRecorded(key: ExecutionKey)
    requires key.executionId != ""
    ensures var s := Run(INITIAL, OvertakenStart(key));
            && |s.log| == 2 && s.log[0] == StartFact(key).(cursor := 1) && key.executionId in s.active
            && 0 in s.callers && s.callers[0] == Caller(StartOp, key, Done(Err(AlreadyActive)), 0)
            && 1 in s.callers && s.callers[1] == Caller(RecoverOp, key, Done(Ok(())), 1)
  {
    var actions, c0 := OvertakenStart(key), Caller(StartOp, key, Admitting, 0);
    StartRecorded(key, actions);
    SecondComes(actions, RecoverOp, [StartFact(key).(cursor := 1)], c0);
    RecoveryEnds(actions, 5, key, c0);
  }

  // -------------------------------------------------------------- an admission overtaken

  /** The action is not this caller's own, and not the end of its process. */
  predicate LeavesAlone(action: Action, id: nat) {
    action != Step(id) && action != Crash(id) && action != Restart
  }

  lemma OthersLeaveAlone(s: State, action: Action, id: nat)
    requires id in s.callers && LeavesAlone(action, id)
    ensures id in Next(s, action).callers && Next(s, action).callers[id] == s.callers[id]
  {
  }

  /**
   A caller about to be admitted is out of everybody's reach: whatever others do meanwhile,
   a cancel of the execution included, its next step takes the execution if nobody has it.
   */
  lemma {:induction false} AdmissionIsNotStopped(s: State, later: seq<Action>, n: nat, id: nat, execution: string)
    requires id in s.callers && s.callers[id].pc.Admitting? && s.callers[id].key.executionId == execution
    requires n <= |later| && forall k :: 0 <= k < n ==> LeavesAlone(later[k], id)
    ensures var t := RunUpTo(s, later, n);
            && id in t.callers && t.callers[id] == s.callers[id]
            && (execution !in t.active ==> execution in Next(t, Step(id)).active)
  {
    if n > 0 {
      AdmissionIsNotStopped(s, later, n - 1, id, execution);
      OthersLeaveAlone(RunUpTo(s, later, n - 1), later[n - 1], id);
    }
  }
}
