/**
 Safety of effect execution over every interleaving of callers, crashes and
 other writers: at most one execution per effect, no start after cancellation,
 and a chain of evidence behind every receipt.
 */
module EffectSafety {
  import opened Wrappers
  import opened LedgerTypes
  import opened Ledger
  import opened ToolEvidence
  import opened EffectProtocol

  // ------------------------------------------------------------------ the log

  /** The log holds this fact, at some cursor. */
  ghost predicate Logged(log: seq<Event>, fact: Event) {
    exists i :: 0 <= i < |log| && log[i] == fact.(cursor := log[i].cursor)
  }

  lemma LoggedIsStable(log: seq<Event>, longer: seq<Event>, fact: Event)
    requires log <= longer && Logged(log, fact)
    ensures Logged(longer, fact)
  {
    var i :| 0 <= i < |log| && log[i] == fact.(cursor := log[i].cursor);
    assert longer[i] == log[i];
  }

  /** Position `i` of the log holds the given slot of an effect. */
  ghost predicate IsSlot(log: seq<Event>, i: int, execution: string, effect: string, slot: Slot) {
    0 <= i < |log| && log[i].eventId == EffectId(execution, effect, slot)
  }

  /** Position `a` authorizes the generic preparation at `p`. */
  ghost predicate Authorizes(log: seq<Event>, p: int, a: int, execution: string, effect: string) {
    && IsSlot(log, p, execution, effect, PreparedSlot) && p < a
    && IsSlot(log, a, execution, effect, AuthorizedSlot)
    && log[p].payload.GenericPrepared? && log[a].payload.Granted?
    && GrantBinds(log[a].payload.grant, log[p].payload.request)
  }

  /** Position `s` starts what `p` prepared and `a` authorized. */
  ghost predicate Starts(log: seq<Event>, p: int, a: int, s: int, execution: string, effect: string) {
    Authorizes(log, p, a, execution, effect) && a < s && IsSlot(log, s, execution, effect, StartedSlot)
  }

  /** Position `r` is a receipt that binds the preparation, the grant and the start before it. */
  ghost predicate Receipts(log: seq<Event>, p: int, a: int, s: int, r: int, execution: string, effect: string) {
    && Starts(log, p, a, s, execution, effect) && s < r
    && IsSlot(log, r, execution, effect, ReceiptSlot)
    && log[r].payload.Outcome?
    && ReceiptBinds(log[p].payload.request, log[a].payload.grant, EffectOutcome(log[r].payload.receipt, log[r].payload.detail))
  }

  /** The evidence event `i` stands on, when the effect was prepared generically at `p`. */
  ghost predicate Linked(log: seq<Event>, p: int, i: int, execution: string, effect: string, slot: Slot) {
    match slot
    case AuthorizedSlot => Authorizes(log, p, i, execution, effect)
    case StartedSlot => exists a :: Starts(log, p, a, i, execution, effect)
    case ReceiptSlot => exists a, s :: Receipts(log, p, a, s, i, execution, effect)
    case CompletedSlot => exists r :: r < i && IsSlot(log, r, execution, effect, ReceiptSlot)
    case FailedSlot => exists r :: r < i && IsSlot(log, r, execution, effect, ReceiptSlot)
    case UncertainSlot => exists r :: r < i && IsSlot(log, r, execution, effect, ReceiptSlot)
    case _ => true
  }

  /** Every effect fact after its preparation follows one, and a generic one stands on its evidence. */
  ghost predicate Chained(log: seq<Event>, i: int)
    requires 0 <= i < |log|
  {
    match log[i].eventId
    case EffectId(execution, effect, slot) =>
      && log[i].executionId == execution
      && (slot == PreparedSlot && log[i].payload.GenericPrepared? ==>
            log[i].payload.request.effectId == effect && RequestValid(log[i].payload.request) && execution != "")
      && (slot != PreparedSlot ==>
            exists p :: 0 <= p < i && IsSlot(log, p, execution, effect, PreparedSlot)
              && (log[p].payload.GenericPrepared? ==> Linked(log, p, i, execution, effect, slot)))
    case _ => true
  }

  ghost predicate NoStartAfterCancel(log: seq<Event>) {
    forall i, j :: 0 <= i < j < |log| && log[i].kind == ExecutionCancelled && log[j].kind == EffectStarted
                   ==> log[i].executionId != log[j].executionId
  }

  ghost predicate LogInv(log: seq<Event>) {
    && WellFormed(log)
    && (forall i :: 0 <= i < |log| ==> log[i].idempotencyKey == log[i].eventId)
    && (forall i :: 0 <= i < |log| ==> Chained(log, i))
    && NoStartAfterCancel(log)
  }

  lemma LinkedIsStable(log: seq<Event>, longer: seq<Event>, p: int, i: int, execution: string, effect: string, slot: Slot)
    requires log <= longer && 0 <= p < i < |log|
    requires Linked(log, p, i, execution, effect, slot)
    ensures Linked(longer, p, i, execution, effect, slot)
  {
    match slot
    case AuthorizedSlot =>
    case StartedSlot =>
      var a :| Starts(log, p, a, i, execution, effect);
      assert Starts(longer, p, a, i, execution, effect);
    case ReceiptSlot =>
      var a, s :| Receipts(log, p, a, s, i, execution, effect);
      assert Receipts(longer, p, a, s, i, execution, effect);
    case CompletedSlot =>
      var r :| r < i && IsSlot(log, r, execution, effect, ReceiptSlot);
      assert IsSlot(longer, r, execution, effect, ReceiptSlot);
    case FailedSlot =>
      var r :| r < i && IsSlot(log, r, execution, effect, ReceiptSlot);
      assert IsSlot(longer, r, execution, effect, ReceiptSlot);
    case UncertainSlot =>
      var r :| r < i && IsSlot(log, r, execution, effect, ReceiptSlot);
      assert IsSlot(longer, r, execution, effect, ReceiptSlot);
    case _ =>
  }

  lemma ChainedIsStable(log: seq<Event>, longer: seq<Event>, i: int)
    requires log <= longer && 0 <= i < |log| && Chained(log, i)
    ensures Chained(longer, i)
  {
    match log[i].eventId
    case EffectId(execution, effect, slot) =>
      if slot != PreparedSlot {
        var p :| 0 <= p < i && IsSlot(log, p, execution, effect, PreparedSlot)
                 && (log[p].payload.GenericPrepared? ==> Linked(log, p, i, execution, effect, slot));
        assert IsSlot(longer, p, execution, effect, PreparedSlot);
        if log[p].payload.GenericPrepared? {
          LinkedIsStable(log, longer, p, i, execution, effect, slot);
        }
      }
    case _ =>
  }

  /** An append keeps the log's invariant when the new fact stands on its evidence. */
  lemma AppendKeepsLog(log: seq<Event>, event: Event, checkCancel: bool)
    requires LogInv(log) && Appended(log, event, checkCancel).Ok?
    requires event.idempotencyKey == event.eventId
    requires event.kind == EffectStarted ==> checkCancel
    requires Chained(Appended(log, event, checkCancel).value, |log|)
    ensures LogInv(Appended(log, event, checkCancel).value)
  {
    var longer := Appended(log, event, checkCancel).value;
    AppendedKeepsWellFormed(log, event, checkCancel);
    forall i | 0 <= i < |log| ensures Chained(longer, i) { ChainedIsStable(log, longer, i); }
  }

  /** With unique identities the fact a lookup returns is the fact at that position. */
  lemma FoundAt(log: seq<Event>, id: EventId) returns (i: int)
    requires Find(log, id).Some?
    ensures 0 <= i < |log| && log[i].eventId == id && Find(log, id) == Some(log[i])
  {
    i :| 0 <= i < |log| && log[i] == Find(log, id).value && log[i].eventId == id;
  }

  lemma FoundIfThere(log: seq<Event>, i: int)
    requires WellFormed(log) && 0 <= i < |log|
    ensures Find(log, log[i].eventId) == Some(log[i])
  {
    assert Find(log, log[i].eventId).Some?;
    var j := FoundAt(log, log[i].eventId);
  }

  // -------------------------------------------------------------- the callers

  ghost predicate PreparedLogged(log: seq<Event>, c: Caller) {
    Logged(log, GoalFact(c.key, c.effect, PreparedGoal))
  }

  ghost predicate HasReceipt(log: seq<Event>, c: Caller) {
    exists r :: IsSlot(log, r, c.key.executionId, c.effect.effectId, ReceiptSlot)
  }

  ghost predicate AuthorizedLogged(log: seq<Event>, c: Caller, grant: EffectGrant) {
    GrantBinds(grant, c.effect) && Logged(log, GoalFact(c.key, c.effect, AuthorizedGoal(grant)))
  }

  /** What the log must already hold for a caller to be at this point. */
  ghost predicate PcOk(log: seq<Event>, c: Caller) {
    match c.pc
    case LookupFact(goal) => GoalOk(log, c, goal)
    case WriteFact(goal) => GoalOk(log, c, goal)
    case ReadTerminal => PreparedLogged(log, c) && !c.entered
    case ReadStarted => PreparedLogged(log, c) && !c.entered
    case Decide => PreparedLogged(log, c) && !c.entered
    case WriteStart(grant) => PreparedLogged(log, c) && AuthorizedLogged(log, c, grant) && !c.entered
    case ReadWinner => PreparedLogged(log, c) && !c.entered
    case Execute(grant) => PreparedLogged(log, c) && AuthorizedLogged(log, c, grant) && c.entered && !c.executed
    case Done(_) => true
    case Crashed => true
    case _ => !c.entered
  }

  ghost predicate GoalOk(log: seq<Event>, c: Caller, goal: Goal) {
    match goal
    case PreparedGoal => !c.entered
    case AuthorizedGoal(grant) => PreparedLogged(log, c) && GrantBinds(grant, c.effect) && !c.entered
    case ReceiptGoal(grant, outcome) =>
      && PreparedLogged(log, c) && AuthorizedLogged(log, c, grant) && c.executed
      && ReceiptBinds(c.effect, grant, outcome)
    case ProjectionGoal(detail) =>
      && PreparedLogged(log, c) && c.executed
      && HasReceipt(log, c)
    case _ => PreparedLogged(log, c) && !c.entered
  }

  ghost predicate CallerOk(log: seq<Event>, c: Caller) {
    && PcOk(log, c)
    && (c.pc.ReadStatus? || c.pc.Done? || c.pc.Crashed? || (RequestValid(c.effect) && c.key.executionId != ""))
    && (c.executed ==> c.entered)
    && (c.entered ==> Logged(log, StartFact(c.key, c.effect)))
  }

  ghost predicate SameEffect(c: Caller, d: Caller) {
    c.key.executionId == d.key.executionId && c.effect.effectId == d.effect.effectId
  }

  ghost predicate CallOk(s: State, call: Call) {
    && call.caller in s.callers
    && s.callers[call.caller].executed && s.callers[call.caller].entered
    && s.callers[call.caller].key.executionId == call.execution
    && s.callers[call.caller].effect.effectId == call.effect
  }

  ghost predicate Inv(s: State) {
    && LogInv(s.log)
    && (forall id :: id in s.callers ==> CallerOk(s.log, s.callers[id]))
    && (forall a, b :: a in s.callers && b in s.callers && a != b && s.callers[a].entered && s.callers[b].entered
                       ==> !SameEffect(s.callers[a], s.callers[b]))
    && (forall k :: 0 <= k < |s.calls| ==> CallOk(s, s.calls[k]))
    && (forall k, l :: 0 <= k < l < |s.calls| ==> s.calls[k].caller != s.calls[l].caller)
  }

  lemma CallerOkIsStable(log: seq<Event>, longer: seq<Event>, c: Caller)
    requires log <= longer && CallerOk(log, c)
    ensures CallerOk(longer, c)
  {
    forall fact | Logged(log, fact) ensures Logged(longer, fact) { LoggedIsStable(log, longer, fact); }
    if HasReceipt(log, c) {
      var r :| IsSlot(log, r, c.key.executionId, c.effect.effectId, ReceiptSlot);
      assert IsSlot(longer, r, c.key.executionId, c.effect.effectId, ReceiptSlot);
    }
  }

  lemma LoggedAt(log: seq<Event>, fact: Event) returns (i: int)
    requires Logged(log, fact)
    ensures 0 <= i < |log| && log[i] == fact.(cursor := log[i].cursor)
  {
    i :| 0 <= i < |log| && log[i] == fact.(cursor := log[i].cursor);
  }

  /** An effect's slot is held by one event. */
  lemma OneSlot(log: seq<Event>, i: int, j: int, execution: string, effect: string, slot: Slot)
    requires WellFormed(log) && IsSlot(log, i, execution, effect, slot) && IsSlot(log, j, execution, effect, slot)
    ensures i == j
  {
  }

  /** In a sound log the authorization a caller relies on comes after the preparation it relies on. */
  lemma AuthorizationFollowsPreparation(log: seq<Event>, c: Caller, grant: EffectGrant) returns (p: int, a: int)
    requires LogInv(log) && PreparedLogged(log, c) && AuthorizedLogged(log, c, grant)
    ensures Authorizes(log, p, a, c.key.executionId, c.effect.effectId)
    ensures log[p].payload == GenericPrepared(c.effect) && log[a].payload == Granted(grant)
  {
    p := LoggedAt(log, GoalFact(c.key, c.effect, PreparedGoal));
    a := LoggedAt(log, GoalFact(c.key, c.effect, AuthorizedGoal(grant)));
    assert Chained(log, a);
    var q :| 0 <= q < a && IsSlot(log, q, c.key.executionId, c.effect.effectId, PreparedSlot)
             && (log[q].payload.GenericPrepared? ==> Linked(log, q, a, c.key.executionId, c.effect.effectId, AuthorizedSlot));
    OneSlot(log, q, p, c.key.executionId, c.effect.effectId, PreparedSlot);
  }

  /** In a sound log a start follows the authorization. */
  lemma StartFollowsAuthorization(log: seq<Event>, c: Caller, grant: EffectGrant) returns (p: int, a: int, s: int)
    requires LogInv(log) && PreparedLogged(log, c) && AuthorizedLogged(log, c, grant)
    requires Logged(log, StartFact(c.key, c.effect))
    ensures Starts(log, p, a, s, c.key.executionId, c.effect.effectId)
    ensures log[p].payload == GenericPrepared(c.effect) && log[a].payload == Granted(grant)
  {
    p, a := AuthorizationFollowsPreparation(log, c, grant);
    s := LoggedAt(log, StartFact(c.key, c.effect));
    assert Chained(log, s);
    var q :| 0 <= q < s && IsSlot(log, q, c.key.executionId, c.effect.effectId, PreparedSlot)
             && (log[q].payload.GenericPrepared? ==> Linked(log, q, s, c.key.executionId, c.effect.effectId, StartedSlot));
    OneSlot(log, q, p, c.key.executionId, c.effect.effectId, PreparedSlot);
    var b :| Starts(log, p, b, s, c.key.executionId, c.effect.effectId);
    OneSlot(log, b, a, c.key.executionId, c.effect.effectId, AuthorizedSlot);
  }

  /** A receipt stands on the preparation, the authorization and the start its caller relies on. */
  lemma ReceiptIsChained(log: seq<Event>, c: Caller, grant: EffectGrant, outcome: EffectOutcome, longer: seq<Event>)
    requires LogInv(log) && CallerOk(log, c) && GoalOk(log, c, ReceiptGoal(grant, outcome))
    requires Appended(log, GoalFact(c.key, c.effect, ReceiptGoal(grant, outcome)), false) == Ok(longer)
    ensures Chained(longer, |log|)
  {
    var x, e := c.key.executionId, c.effect.effectId;
    var p, a, s := StartFollowsAuthorization(log, c, grant);
    assert IsSlot(longer, p, x, e, PreparedSlot);
    assert Receipts(longer, p, a, s, |log|, x, e);
    assert Linked(longer, p, |log|, x, e, ReceiptSlot);
  }

  /** A projection stands on the receipt. */
  lemma ProjectionIsChained(log: seq<Event>, c: Caller, detail: Detail, longer: seq<Event>)
    requires GoalOk(log, c, ProjectionGoal(detail)) && PreparedLogged(log, c)
    requires Appended(log, GoalFact(c.key, c.effect, ProjectionGoal(detail)), false) == Ok(longer)
    ensures Chained(longer, |log|)
  {
    var x, e, n := c.key.executionId, c.effect.effectId, |log|;
    var p := LoggedAt(log, GoalFact(c.key, c.effect, PreparedGoal));
    assert IsSlot(longer, p, x, e, PreparedSlot);
    var r :| IsSlot(log, r, x, e, ReceiptSlot);
    assert IsSlot(longer, r, x, e, ReceiptSlot);
    assert Linked(longer, p, n, x, e, longer[n].eventId.slot);
  }

  /** The fact a caller is about to write stands on its evidence. */
  lemma GoalIsChained(log: seq<Event>, c: Caller, goal: Goal, longer: seq<Event>)
    requires LogInv(log) && CallerOk(log, c) && c.pc == WriteFact(goal)
    requires Appended(log, GoalFact(c.key, c.effect, goal), false) == Ok(longer)
    ensures Chained(longer, |log|)
  {
    if goal.ReceiptGoal? {
      ReceiptIsChained(log, c, goal.grant, goal.outcome, longer);
    } else if goal.ProjectionGoal? {
      ProjectionIsChained(log, c, goal.detail, longer);
    } else if !goal.PreparedGoal? && !goal.SuspendedGoal? {
      var p := LoggedAt(log, GoalFact(c.key, c.effect, PreparedGoal));
      assert IsSlot(longer, p, c.key.executionId, c.effect.effectId, PreparedSlot);
      assert Linked(longer, p, |log|, c.key.executionId, c.effect.effectId, longer[|log|].eventId.slot);
    }
  }

  lemma StartIsChained(log: seq<Event>, c: Caller, grant: EffectGrant)
    requires LogInv(log) && PreparedLogged(log, c) && AuthorizedLogged(log, c, grant)
    requires Appended(log, StartFact(c.key, c.effect), true).Ok?
    ensures Chained(Appended(log, StartFact(c.key, c.effect), true).value, |log|)
  {
    var longer := Appended(log, StartFact(c.key, c.effect), true).value;
    var p, a := AuthorizationFollowsPreparation(log, c, grant);
    assert IsSlot(longer, p, c.key.executionId, c.effect.effectId, PreparedSlot);
    assert Starts(longer, p, a, |log|, c.key.executionId, c.effect.effectId);
    assert Linked(longer, p, |log|, c.key.executionId, c.effect.effectId, StartedSlot);
  }

  lemma ForeignIsChained(log: seq<Event>, event: Event, checkCancel: bool)
    requires LogInv(log) && ForeignAllowed(log, event, checkCancel)
    requires Appended(log, event, checkCancel).Ok?
    ensures Chained(Appended(log, event, checkCancel).value, |log|)
  {
    var longer := Appended(log, event, checkCancel).value;
    if event.eventId.EffectId? && event.eventId.slot != PreparedSlot {
      var p :| 0 <= p < |log| && log[p].eventId == EffectId(event.eventId.execution, event.eventId.effect, PreparedSlot)
               && !log[p].payload.GenericPrepared?;
      assert IsSlot(longer, p, event.eventId.execution, event.eventId.effect, PreparedSlot);
    }
  }

  /** A successful append puts the fact in the log; a matching lookup means it is already there. */
  lemma WrittenIsLogged(log: seq<Event>, fact: Event, checkCancel: bool)
    requires fact.cursor == 0 && Appended(log, fact, checkCancel).Ok?
    ensures Logged(Appended(log, fact, checkCancel).value, fact)
  {
    var longer := Appended(log, fact, checkCancel).value;
    assert longer[|log|] == fact.(cursor := longer[|log|].cursor);
  }

  lemma MatchedIsLogged(log: seq<Event>, fact: Event)
    requires LogInv(log) && fact.idempotencyKey == fact.eventId
    requires Find(log, fact.eventId).Some? && SameFact(Find(log, fact.eventId).value, fact)
    ensures Logged(log, fact)
  {
    var i := FoundAt(log, fact.eventId);
    assert log[i] == fact.(cursor := log[i].cursor);
  }

  lemma LoggedReceiptIsSlot(log: seq<Event>, c: Caller, grant: EffectGrant, outcome: EffectOutcome)
    requires Logged(log, GoalFact(c.key, c.effect, ReceiptGoal(grant, outcome)))
    ensures HasReceipt(log, c)
  {
    var r := LoggedAt(log, GoalFact(c.key, c.effect, ReceiptGoal(grant, outcome)));
    assert IsSlot(log, r, c.key.executionId, c.effect.effectId, ReceiptSlot);
  }

  /** Once a goal's fact is in the log the caller may move past it. */
  lemma PastGoal(log: seq<Event>, c: Caller, goal: Goal)
    requires CallerOk(log, c) && (c.pc == WriteFact(goal) || c.pc == LookupFact(goal)) && Logged(log, GoalFact(c.key, c.effect, goal))
    ensures CallerOk(log, c.(pc := AfterGoal(goal)))
  {
    var d := c.(pc := AfterGoal(goal));
    assert GoalOk(log, c, goal);
    assert PreparedLogged(log, c) == PreparedLogged(log, d);
    match goal
    case PreparedGoal => assert PcOk(log, d);
    case AuthorizedGoal(grant) =>
      assert AuthorizedLogged(log, d, grant);
      assert PcOk(log, d);
    case ReceiptGoal(grant, outcome) =>
      LoggedReceiptIsSlot(log, c, grant, outcome);
      assert HasReceipt(log, d);
      assert GoalOk(log, d, ProjectionGoal(outcome.detail));
    case _ =>
  }

  /** What one step of a caller keeps, and when it enters the effect. */
  ghost predicate Keeps(log: seq<Event>, c: Caller, r: Stepped) {
    && log <= r.log && LogInv(r.log) && CallerOk(r.log, r.caller)
    && SameEffect(r.caller, c)
    && (c.entered ==> r.caller.entered)
    && (r.caller.entered && !c.entered ==> Find(log, StartFact(c.key, c.effect).eventId).None?)
    && r.caller.executed == (c.executed || c.pc.Execute?)
  }

  lemma LookupKeeps(log: seq<Event>, c: Caller, goal: Goal)
    requires LogInv(log) && CallerOk(log, c) && c.pc == LookupFact(goal)
    ensures CallerOk(log, c.(pc := AfterLookup(c, goal, Find(log, GoalFact(c.key, c.effect, goal).eventId))))
  {
    var fact := GoalFact(c.key, c.effect, goal);
    var found := Find(log, fact.eventId);
    if found.None? {
      WaitingToWrite(log, c, goal);
    } else if SameFact(found.value, fact) {
      MatchedKeeps(log, c, goal);
    }
  }

  lemma MatchedKeeps(log: seq<Event>, c: Caller, goal: Goal)
    requires LogInv(log) && CallerOk(log, c) && c.pc == LookupFact(goal)
    requires var found := Find(log, GoalFact(c.key, c.effect, goal).eventId);
             found.Some? && SameFact(found.value, GoalFact(c.key, c.effect, goal))
    ensures CallerOk(log, c.(pc := AfterGoal(goal)))
  {
    MatchedIsLogged(log, GoalFact(c.key, c.effect, goal));
    PastGoal(log, c, goal);
  }

  lemma WaitingToWrite(log: seq<Event>, c: Caller, goal: Goal)
    requires CallerOk(log, c) && c.pc == LookupFact(goal)
    ensures CallerOk(log, c.(pc := WriteFact(goal)))
  {
    var d := c.(pc := WriteFact(goal));
    assert GoalOk(log, c, goal);
    assert PreparedLogged(log, c) == PreparedLogged(log, d);
    assert HasReceipt(log, c) == HasReceipt(log, d);
    assert GoalOk(log, d, goal);
  }

  /** Before its preparation is written a caller has not entered the effect. */
  predicate Early(pc: Pc) {
    match pc
    case ReadStatus | ReadPrepared | Probe(_) | RecoverIdentity(_) | RecoverAuthorized(_) | RecoverStarted(_)
       | RecoverReceipt(_, _) => true
    case _ => false
  }

  lemma EarlyStaysEarly(lib: Library, log: seq<Event>, c: Caller, answers: Answers)
    requires Early(c.pc)
    ensures var pc := ReadStep(lib, log, c, answers);
            Early(pc) || pc.Done? || pc == LookupFact(PreparedGoal)
  {
  }

  lemma ReadKeeps(lib: Library, log: seq<Event>, c: Caller, answers: Answers)
    requires LogInv(log) && CallerOk(log, c)
    requires !c.pc.WriteFact? && !c.pc.WriteStart? && !c.pc.Execute?
    ensures CallerOk(log, c.(pc := ReadStep(lib, log, c, answers)))
  {
    if Early(c.pc) {
      EarlyStaysEarly(lib, log, c, answers);
    } else if c.pc.LookupFact? {
      LookupKeeps(log, c, c.pc.goal);
    }
  }

  /** A fact that was appended was new. */
  lemma AppendedWasNew(log: seq<Event>, event: Event, checkCancel: bool)
    requires Appended(log, event, checkCancel).Ok?
    ensures Find(log, event.eventId).None?
  {
    if Find(log, event.eventId).Some? { var i := FoundAt(log, event.eventId); }
  }

  lemma WroteGoal(log: seq<Event>, longer: seq<Event>, c: Caller, goal: Goal)
    requires LogInv(log) && CallerOk(log, c) && c.pc == WriteFact(goal)
    requires Appended(log, GoalFact(c.key, c.effect, goal), false) == Ok(longer)
    ensures log <= longer && LogInv(longer) && CallerOk(longer, c.(pc := AfterGoal(goal)))
  {
    GoalAppended(log, longer, c, goal);
    PassedGoal(log, longer, c, goal);
  }

  lemma GoalAppended(log: seq<Event>, longer: seq<Event>, c: Caller, goal: Goal)
    requires LogInv(log) && CallerOk(log, c) && c.pc == WriteFact(goal)
    requires Appended(log, GoalFact(c.key, c.effect, goal), false) == Ok(longer)
    ensures log <= longer && LogInv(longer)
  {
    GoalIsChained(log, c, goal, longer);
    AppendKeepsLog(log, GoalFact(c.key, c.effect, goal), false);
  }

  lemma PassedGoal(log: seq<Event>, longer: seq<Event>, c: Caller, goal: Goal)
    requires CallerOk(log, c) && c.pc == WriteFact(goal)
    requires Appended(log, GoalFact(c.key, c.effect, goal), false) == Ok(longer)
    ensures CallerOk(longer, c.(pc := AfterGoal(goal)))
  {
    CallerOkIsStable(log, longer, c);
    WrittenIsLogged(log, GoalFact(c.key, c.effect, goal), false);
    PastGoal(longer, c, goal);
  }

  lemma WriteKeeps(log: seq<Event>, c: Caller, goal: Goal)
    requires LogInv(log) && CallerOk(log, c) && c.pc == WriteFact(goal)
    ensures Keeps(log, c, WriteStep(log, c, goal))
  {
    var r := Appended(log, GoalFact(c.key, c.effect, goal), false);
    if r.Ok? { WroteGoal(log, r.value, c, goal); }
  }

  lemma WroteStart(log: seq<Event>, longer: seq<Event>, c: Caller, grant: EffectGrant)
    requires LogInv(log) && CallerOk(log, c) && c.pc == WriteStart(grant)
    requires Appended(log, StartFact(c.key, c.effect), true) == Ok(longer)
    ensures log <= longer && LogInv(longer) && CallerOk(longer, c.(pc := Execute(grant), entered := true))
  {
    StartIsChained(log, c, grant);
    AppendKeepsLog(log, StartFact(c.key, c.effect), true);
    CallerOkIsStable(log, longer, c);
    WrittenIsLogged(log, StartFact(c.key, c.effect), true);
  }

  lemma StartKeeps(log: seq<Event>, c: Caller, grant: EffectGrant)
    requires LogInv(log) && CallerOk(log, c) && c.pc == WriteStart(grant)
    ensures Keeps(log, c, StartStep(log, c, grant))
  {
    var r := Appended(log, StartFact(c.key, c.effect), true);
    if r.Ok? {
      WroteStart(log, r.value, c, grant);
      AppendedWasNew(log, StartFact(c.key, c.effect), true);
    }
  }

  lemma ExecuteKeeps(log: seq<Event>, c: Caller, grant: EffectGrant, answers: Answers)
    requires LogInv(log) && CallerOk(log, c) && c.pc == Execute(grant)
    ensures Keeps(log, c, ExecuteStep(log, c, grant, answers))
  {
  }

  lemma ReadStepKeeps(lib: Library, log: seq<Event>, c: Caller, answers: Answers)
    requires LogInv(log) && CallerOk(log, c)
    requires !c.pc.WriteFact? && !c.pc.WriteStart? && !c.pc.Execute?
    ensures Keeps(log, c, Stepped(log, c.(pc := ReadStep(lib, log, c, answers))))
  {
    ReadKeeps(lib, log, c, answers);
  }

  /** A step that is no write, start or execution is a read. */
  lemma OtherwiseReads(lib: Library, log: seq<Event>, c: Caller, answers: Answers)
    requires !c.pc.WriteFact? && !c.pc.WriteStart? && !c.pc.Execute?
    ensures CallerStep(lib, log, c, answers) == Stepped(log, c.(pc := ReadStep(lib, log, c, answers)))
  {
  }

  lemma CallerStepKeeps(lib: Library, log: seq<Event>, c: Caller, answers: Answers)
    requires LogInv(log) && CallerOk(log, c)
    ensures Keeps(log, c, CallerStep(lib, log, c, answers))
  {
    if c.pc.WriteFact? {
      WriteKeeps(log, c, c.pc.goal);
    } else if c.pc.WriteStart? {
      StartKeeps(log, c, c.pc.grant);
    } else if c.pc.Execute? {
      ExecuteKeeps(log, c, c.pc.grant, answers);
    } else {
      ReadStepKeeps(lib, log, c, answers);
      OtherwiseReads(lib, log, c, answers);
    }
  }

  /** A caller that entered an effect left its start record in the log. */
  lemma EnteredIsFound(log: seq<Event>, c: Caller)
    requires LogInv(log) && CallerOk(log, c) && c.entered
    ensures Find(log, StartFact(c.key, c.effect).eventId).Some?
  {
    var i := LoggedAt(log, StartFact(c.key, c.effect));
    FoundIfThere(log, i);
  }

  lemma StepKeepsInv(lib: Library, s: State, id: nat, answers: Answers)
    requires Inv(s) && id in s.callers
    ensures Inv(Next(lib, s, Step(id, answers)))
  {
    var c := s.callers[id];
    var r := CallerStep(lib, s.log, c, answers);
    CallerStepKeeps(lib, s.log, c, answers);
    var calls := if c.pc.Execute? then s.calls + [Call(id, c.key.executionId, c.effect.effectId, c.pc.grant)] else s.calls;
    MovedKeepsInv(s, id, r, calls);
    assert Next(lib, s, Step(id, answers)) == State(r.log, s.callers[id := r.caller], calls);
  }

  lemma MovedKeepsInv(s: State, id: nat, r: Stepped, calls: seq<Call>)
    requires Inv(s) && id in s.callers && Keeps(s.log, s.callers[id], r)
    requires var c := s.callers[id];
             calls == if c.pc.Execute? then s.calls + [Call(id, c.key.executionId, c.effect.effectId, c.pc.grant)] else s.calls
    ensures Inv(State(r.log, s.callers[id := r.caller], calls))
  {
    MovedCallersKeep(s, id, r);
    MovedCallsKeep(s, id, r, calls);
  }

  lemma MovedCallersKeep(s: State, id: nat, r: Stepped)
    requires Inv(s) && id in s.callers && Keeps(s.log, s.callers[id], r)
    ensures var callers := s.callers[id := r.caller];
            && (forall other :: other in callers ==> CallerOk(r.log, callers[other]))
            && (forall a, b :: a in callers && b in callers && a != b && callers[a].entered && callers[b].entered
                               ==> !SameEffect(callers[a], callers[b]))
  {
    var c := s.callers[id];
    var callers := s.callers[id := r.caller];
    forall other | other in callers ensures CallerOk(r.log, callers[other]) {
      if other != id { CallerOkIsStable(s.log, r.log, s.callers[other]); }
    }
    forall other | other in s.callers && other != id && s.callers[other].entered && r.caller.entered
      ensures !SameEffect(r.caller, s.callers[other])
    {
      if !c.entered { EnteredElsewhere(s, c, other, r.caller); }
    }
  }

  lemma MovedCallsKeep(s: State, id: nat, r: Stepped, calls: seq<Call>)
    requires Inv(s) && id in s.callers && Keeps(s.log, s.callers[id], r)
    requires var c := s.callers[id];
             calls == if c.pc.Execute? then s.calls + [Call(id, c.key.executionId, c.effect.effectId, c.pc.grant)] else s.calls
    ensures var t := State(r.log, s.callers[id := r.caller], calls);
            && (forall k :: 0 <= k < |calls| ==> CallOk(t, calls[k]))
            && (forall k, l :: 0 <= k < l < |calls| ==> calls[k].caller != calls[l].caller)
  {
    var c := s.callers[id];
    var t := State(r.log, s.callers[id := r.caller], calls);
    forall k | 0 <= k < |s.calls|
      ensures CallOk(t, s.calls[k]) && (c.pc.Execute? ==> s.calls[k].caller != id)
    {
      assert CallOk(s, s.calls[k]);
    }
    forall k | 0 <= k < |calls| ensures CallOk(t, calls[k]) {
      if k < |s.calls| { assert calls[k] == s.calls[k]; }
    }
  }

  /** Nobody else has entered an effect whose start record is not in the log. */
  lemma EnteredElsewhere(s: State, c: Caller, other: nat, after: Caller)
    requires Inv(s) && other in s.callers && s.callers[other].entered
    requires Find(s.log, StartFact(c.key, c.effect).eventId).None? && SameEffect(after, c)
    ensures !SameEffect(after, s.callers[other])
  {
    EnteredIsFound(s.log, s.callers[other]);
  }

  lemma ForeignKeepsInv(lib: Library, s: State, event: Event, checkCancel: bool)
    requires Inv(s)
    ensures Inv(Next(lib, s, Foreign(event, checkCancel)))
  {
    var r := Appended(s.log, event, checkCancel);
    if ForeignAllowed(s.log, event, checkCancel) && r.Ok? {
      ForeignIsChained(s.log, event, checkCancel);
      AppendKeepsLog(s.log, event, checkCancel);
      forall id | id in s.callers ensures CallerOk(r.value, s.callers[id]) { CallerOkIsStable(s.log, r.value, s.callers[id]); }
      forall k | 0 <= k < |s.calls| ensures CallOk(s.(log := r.value), s.calls[k]) { assert CallOk(s, s.calls[k]); }
    }
  }

  /** A new caller, or a caller moved without writing anything, keeps the invariant. */
  lemma ReplacedKeepsInv(s: State, id: nat, c: Caller)
    requires Inv(s) && CallerOk(s.log, c)
    requires if id in s.callers
             then c == s.callers[id].(pc := c.pc)
             else !c.entered
    ensures Inv(s.(callers := s.callers[id := c]))
  {
    var t := s.(callers := s.callers[id := c]);
    forall k | 0 <= k < |s.calls| ensures CallOk(t, s.calls[k]) { assert CallOk(s, s.calls[k]); }
  }

  lemma NextKeepsInv(lib: Library, s: State, action: Action)
    requires Inv(s)
    ensures Inv(Next(lib, s, action))
  {
    match action
    case Spawn(id, key, effect) => if id !in s.callers { ReplacedKeepsInv(s, id, Fresh(key, effect)); }
    case Step(id, answers) => if id in s.callers { StepKeepsInv(lib, s, id, answers); }
    case Crash(id) => if id in s.callers { ReplacedKeepsInv(s, id, s.callers[id].(pc := Crashed)); }
    case Foreign(event, checkCancel) => ForeignKeepsInv(lib, s, event, checkCancel);
  }

  lemma {:induction false} RunKeepsInv(lib: Library, s: State, actions: seq<Action>, n: nat)
    requires Inv(s) && n <= |actions|
    ensures Inv(RunUpTo(lib, s, actions, n))
  {
    if n > 0 {
      RunKeepsInv(lib, s, actions, n - 1);
      NextKeepsInv(lib, RunUpTo(lib, s, actions, n - 1), actions[n - 1]);
    }
  }

  // ------------------------------------------------------------ main results

  /**
   Over every interleaving the executor is called at most once for an effect of
   an execution, and only by a caller whose own start record was appended.
   */
  lemma AtMostOnce(lib: Library, actions: seq<Action>)
    ensures var s := Run(lib, INITIAL, actions);
            && (forall k, l :: 0 <= k < l < |s.calls| ==>
                  s.calls[k].execution != s.calls[l].execution || s.calls[k].effect != s.calls[l].effect)
            && (forall k :: 0 <= k < |s.calls| ==>
                  && s.calls[k].caller in s.callers
                  && s.callers[s.calls[k].caller].entered
                  && Find(s.log, EffectId(s.calls[k].execution, s.calls[k].effect, StartedSlot)).Some?)
  {
    RunKeepsInv(lib, INITIAL, actions, |actions|);
    var s := Run(lib, INITIAL, actions);
    forall k | 0 <= k < |s.calls|
      ensures Find(s.log, EffectId(s.calls[k].execution, s.calls[k].effect, StartedSlot)).Some?
    {
      assert CallOk(s, s.calls[k]);
      EnteredIsFound(s.log, s.callers[s.calls[k].caller]);
    }
    forall k, l | 0 <= k < l < |s.calls|
      ensures s.calls[k].execution != s.calls[l].execution || s.calls[k].effect != s.calls[l].effect
    {
      assert CallOk(s, s.calls[k]) && CallOk(s, s.calls[l]);
      assert s.callers[s.calls[k].caller].entered && s.callers[s.calls[l].caller].entered;
    }
  }

  /** No start record ever follows the cancellation of its execution. */
  lemma NeverStartedAfterCancel(lib: Library, actions: seq<Action>)
    ensures NoStartAfterCancel(Run(lib, INITIAL, actions).log)
  {
    RunKeepsInv(lib, INITIAL, actions, |actions|);
  }

  /**
   Behind every receipt of a generically prepared effect stand, in cursor order,
   the preparation, an authorization of it and a start, all binding the same
   effect, input digest and grant as the receipt.
   */
  lemma EvidenceChain(lib: Library, actions: seq<Action>, p: nat, r: nat, execution: string, effect: string)
    requires var log := Run(lib, INITIAL, actions).log;
             && IsSlot(log, p, execution, effect, PreparedSlot) && log[p].payload.GenericPrepared?
             && IsSlot(log, r, execution, effect, ReceiptSlot)
    ensures exists a, s :: Receipts(Run(lib, INITIAL, actions).log, p, a, s, r, execution, effect)
  {
    RunKeepsInv(lib, INITIAL, actions, |actions|);
    var log := Run(lib, INITIAL, actions).log;
    assert Chained(log, r);
    var q :| 0 <= q < r && IsSlot(log, q, execution, effect, PreparedSlot)
             && (log[q].payload.GenericPrepared? ==> Linked(log, q, r, execution, effect, ReceiptSlot));
    assert q == p;
  }
}
