/**
 One caller of `apply_effect` with nobody else writing: every step brings it nearer
 its reply, and applying a started request again reports what the log holds.
 */
module EffectAlone {
  import opened Wrappers
  import opened LedgerTypes
  import opened Ledger
  import opened ToolEvidence
  import opened EffectProtocol
  import opened EffectSafety
  import opened EffectReplay

  function GoalRank(goal: Goal): nat {
    match goal
    case PreparedGoal => 80
    case AuthorizedGoal(_) => 70
    case ReceiptGoal(_, _) => 40
    case ProjectionGoal(_) => 30
    case AwaitingGoal(_) => 22
    case DeniedGoal(_) => 20
    case SuspendedGoal(_) => 20
  }

  /** How far a caller is from its reply. */
  function Rank(pc: Pc): nat {
    match pc
    case ReadStatus => 100
    case ReadPrepared => 99
    case Probe(AuthorizedSlot) => 98
    case Probe(StartedSlot) => 97
    case Probe(_) => 96
    case RecoverIdentity(_) => 95
    case RecoverAuthorized(_) => 94
    case RecoverStarted(_) => 93
    case RecoverReceipt(_, _) => 92
    case LookupFact(goal) => GoalRank(goal) + 1
    case WriteFact(goal) => GoalRank(goal)
    case ReadTerminal => 79
    case ReadStarted => 78
    case Decide => 77
    case WriteStart(_) => 60
    case ReadWinner => 50
    case Execute(_) => 49
    case Done(_) => 0
    case Crashed => 0
  }

  ghost predicate Finished(c: Caller) {
    c.pc.Done? || c.pc.Crashed?
  }

  /** The steps that recover a prepared tool's history. */
  predicate Recovers(pc: Pc) {
    pc.RecoverIdentity? || pc.RecoverAuthorized? || pc.RecoverStarted? || pc.RecoverReceipt?
  }

  lemma RecoveryDescends(lib: Library, log: seq<Event>, c: Caller, answers: Answers)
    requires Recovers(c.pc)
    ensures Rank(ReadStep(lib, log, c, answers)) < Rank(c.pc)
  {
  }

  lemma LookupDescends(c: Caller, goal: Goal, found: Option<Event>)
    ensures Rank(AfterLookup(c, goal, found)) < GoalRank(goal) + 1
    ensures Rank(AfterGoal(goal)) < GoalRank(goal)
  {
  }

  lemma ReadDescends(lib: Library, log: seq<Event>, c: Caller, answers: Answers)
    requires !Finished(c) && !c.pc.WriteFact? && !c.pc.WriteStart? && !c.pc.Execute? && !c.pc.LookupFact? && !Recovers(c.pc)
    ensures Rank(ReadStep(lib, log, c, answers)) < Rank(c.pc)
  {
  }

  lemma WriteDescends(log: seq<Event>, c: Caller, goal: Goal)
    ensures Rank(WriteStep(log, c, goal).caller.pc) < GoalRank(goal)
  {
    LookupDescends(c, goal, None);
  }

  lemma StartDescends(log: seq<Event>, c: Caller, grant: EffectGrant)
    ensures Rank(StartStep(log, c, grant).caller.pc) < 60
  {
  }

  lemma ExecuteDescends(effect: EffectRequest, grant: EffectGrant, outcome: Reply<EffectOutcome>)
    ensures Rank(AfterExecution(effect, grant, outcome)) < 49
  {
  }

  /** Every step brings a caller nearer its reply, so `apply_effect` always ends. */
  lemma StepDescends(lib: Library, log: seq<Event>, c: Caller, answers: Answers)
    requires !Finished(c)
    ensures Rank(CallerStep(lib, log, c, answers).caller.pc) < Rank(c.pc)
  {
    match c.pc
    case WriteFact(goal) => WriteDescends(log, c, goal);
    case WriteStart(grant) => StartDescends(log, c, grant);
    case Execute(grant) => ExecuteDescends(c.effect, grant, answers.outcome);
    case LookupFact(goal) => LookupDescends(c, goal, Find(log, GoalFact(c.key, c.effect, goal).eventId));
    case _ => if Recovers(c.pc) { RecoveryDescends(lib, log, c, answers); } else { ReadDescends(lib, log, c, answers); }
  }

  /** A caller's steps to the end, with nobody else writing. */
  ghost function Alone(lib: Library, log: seq<Event>, c: Caller, answers: Answers): Stepped
    decreases Rank(c.pc)
  {
    if Finished(c) then Stepped(log, c)
    else
      StepDescends(lib, log, c, answers);
      var next := CallerStep(lib, log, c, answers);
      Alone(lib, next.log, next.caller, answers)
  }

  /** One step into a run alone. */
  lemma AloneSteps(lib: Library, log: seq<Event>, c: Caller, answers: Answers, next: Stepped)
    requires !Finished(c) && CallerStep(lib, log, c, answers) == next
    ensures Alone(lib, log, c, answers) == Alone(lib, next.log, next.caller, answers)
    ensures Finished(next.caller) ==> Alone(lib, log, c, answers) == next
  {
  }

  lemma {:induction false} LateAlone(lib: Library, log: seq<Event>, c: Caller, receipt: bool, answers: Answers)
    requires LogInv(log) && Late(log, c, receipt) && !c.pc.Crashed?
    ensures var end := Alone(lib, log, c, answers);
            end.log == log && Late(log, end.caller, receipt) && end.caller.pc.Done?
            && end.caller.key == c.key && end.caller.effect == c.effect
    decreases Rank(c.pc)
  {
    if !c.pc.Done? {
      LateStep(lib, log, c, receipt, answers);
      StepDescends(lib, log, c, answers);
      LateAlone(lib, log, CallerStep(lib, log, c, answers).caller, receipt, answers);
    }
  }

  /**
   Applying a request again, once its effect has started, writes nothing and does
   not depend on what admission or the executor would answer: it reports the
   cancellation if there is one, else the receipt's disposition if there is a
   receipt, else that reconciliation is required.
   */
  lemma ReapplyIsExact(lib: Library, log: seq<Event>, key: ExecutionKey, effect: EffectRequest, s: int, answers: Answers)
    requires LogInv(log) && PreparedLogged(log, Fresh(key, effect))
    requires IsSlot(log, s, key.executionId, effect.effectId, StartedSlot)
    ensures var end := Alone(lib, log, Fresh(key, effect), answers);
            && end.log == log && !end.caller.executed && end.caller.pc.Done?
            && (IsCancelled(log, key.executionId) ==> end.caller.pc.reply == Ok(Cancelled))
            && (!IsCancelled(log, key.executionId) ==>
                  if HasReceipt(log, Fresh(key, effect)) then IsReceiptReply(log, Fresh(key, effect), end.caller.pc.reply)
                  else end.caller.pc.reply == Ok(Uncertain(ReconciliationRequired)))
  {
    var c := Fresh(key, effect);
    LateAlone(lib, log, c, HasReceipt(log, c), answers);
    if IsCancelled(log, key.executionId) {
      StatusIsCancelled(log, key.executionId);
      var p := PreparedOf(log, c);
      AloneSteps(lib, log, c, answers, Stepped(log, c.(pc := AfterStatus(c, log))));
    }
  }
}
