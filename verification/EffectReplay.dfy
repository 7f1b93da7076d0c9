/**
 Replaying an effect that already started: over every continuation of any run,
 a caller that arrives after the start record only reports what the log holds.
 It writes nothing and asks neither admission nor the executor.
 */
module EffectReplay {
  import opened Wrappers
  import opened LedgerTypes
  import opened Ledger
  import opened ToolEvidence
  import opened EffectProtocol
  import opened EffectSafety

  // ------------------------------------------------- what the folds really read

  lemma {:induction false} StatusFoldFindsCancellation(events: seq<Event>, n: nat)
    requires n <= |events|
    ensures StatusUpTo(events, n) == Some(CancelledStatus)
            <==> exists i :: 0 <= i < n && events[i].kind == ExecutionCancelled
  {
    if n > 0 { StatusFoldFindsCancellation(events, n - 1); }
  }

  /** The status fold reports cancellation exactly when the log holds one for the execution. */
  lemma StatusIsCancelled(log: seq<Event>, execution: string)
    requires WellFormed(log)
    ensures StatusOf(log, execution) == Some(CancelledStatus) <==> IsCancelled(log, execution)
  {
    var events := EventsOf(log, execution, 0);
    StatusFoldFindsCancellation(events, |events|);
    EventsOfIsExact(log, execution, 0);
    if IsCancelled(log, execution) {
      var i :| 0 <= i < |log| && log[i].executionId == execution && log[i].kind == ExecutionCancelled;
      assert log[i] in events;
    }
    if exists i :: 0 <= i < |events| && events[i].kind == ExecutionCancelled {
      var i :| 0 <= i < |events| && events[i].kind == ExecutionCancelled;
      assert events[i] in events;
    }
  }

  lemma {:induction false} NoVerdictNoTerminal(events: seq<Event>, n: nat, execution: string, effect: EffectRequest)
    requires n <= |events|
    requires forall i :: 0 <= i < n ==> Verdict(events[i], execution, effect).None?
    ensures TerminalUpTo(events, n, execution, effect).None?
  {
    if n > 0 { NoVerdictNoTerminal(events, n - 1, execution, effect); }
  }

  lemma {:induction false} FirstVerdictWins(events: seq<Event>, k: nat, n: nat, execution: string, effect: EffectRequest)
    requires k < n <= |events|
    requires forall i :: 0 <= i < k ==> Verdict(events[i], execution, effect).None?
    requires Verdict(events[k], execution, effect).Some?
    ensures TerminalUpTo(events, n, execution, effect) == Verdict(events[k], execution, effect)
  {
    if n == k + 1 {
      NoVerdictNoTerminal(events, k, execution, effect);
    } else {
      FirstVerdictWins(events, k, n - 1, execution, effect);
    }
  }

  /** The log holds a generic preparation of the effect at `p`. */
  ghost predicate PreparedAt(log: seq<Event>, p: int, execution: string, effect: EffectRequest) {
    IsSlot(log, p, execution, effect.effectId, PreparedSlot) && log[p].payload == GenericPrepared(effect)
  }

  /** For a generic effect, whatever gives a verdict is the receipt or comes after it. */
  lemma VerdictsFollowReceipt(log: seq<Event>, p: int, i: int, execution: string, effect: EffectRequest) returns (r: int)
    requires LogInv(log) && PreparedAt(log, p, execution, effect)
    requires 0 <= i < |log| && Verdict(log[i], execution, effect).Some?
    ensures IsSlot(log, r, execution, effect.effectId, ReceiptSlot) && r <= i
  {
    assert Chained(log, i);
    var slot := log[i].eventId.slot;
    var q :| 0 <= q < i && IsSlot(log, q, execution, effect.effectId, PreparedSlot)
             && (log[q].payload.GenericPrepared? ==> Linked(log, q, i, execution, effect.effectId, slot));
    assert q == p;
    if slot == ReceiptSlot {
      r := i;
    } else {
      r :| r < i && IsSlot(log, r, execution, effect.effectId, ReceiptSlot);
    }
  }

  /** A receipt of a generic effect carries this request's verdict. */
  lemma ReceiptVerdict(log: seq<Event>, p: int, r: int, execution: string, effect: EffectRequest)
    requires LogInv(log) && PreparedAt(log, p, execution, effect)
    requires IsSlot(log, r, execution, effect.effectId, ReceiptSlot)
    ensures log[r].payload.Outcome? && log[r].executionId == execution
    ensures Verdict(log[r], execution, effect) == Some(Ok(DetailDisposition(log[r].payload.detail)))
  {
    assert Chained(log, r);
    var q :| 0 <= q < r && IsSlot(log, q, execution, effect.effectId, PreparedSlot)
             && (log[q].payload.GenericPrepared? ==> Linked(log, q, r, execution, effect.effectId, ReceiptSlot));
    assert q == p;
    var a, s :| Receipts(log, p, a, s, r, execution, effect.effectId);
  }

  /** Reading the terminal effect of a generic request returns its receipt's disposition. */
  lemma TerminalIsReceipt(log: seq<Event>, p: int, r: int, execution: string, effect: EffectRequest)
    requires LogInv(log) && PreparedAt(log, p, execution, effect)
    requires IsSlot(log, r, execution, effect.effectId, ReceiptSlot)
    ensures log[r].payload.Outcome?
    ensures TerminalOf(log, execution, effect) == Some(Ok(DetailDisposition(log[r].payload.detail)))
  {
    ReceiptVerdict(log, p, r, execution, effect);
    var events := EventsOf(log, execution, 0);
    EventsOfIsExact(log, execution, 0);
    assert log[r] in events;
    var k :| 0 <= k < |events| && events[k] == log[r];
    forall i | 0 <= i < k ensures Verdict(events[i], execution, effect).None? {
      if Verdict(events[i], execution, effect).Some? {
        assert events[i] in events;
        var j :| 0 <= j < |log| && log[j] == events[i];
        var q := VerdictsFollowReceipt(log, p, j, execution, effect);
        assert false;
      }
    }
    FirstVerdictWins(events, k, |events|, execution, effect);
  }

  /** Without a receipt a generic request has no terminal effect. */
  lemma NoReceiptNoTerminal(log: seq<Event>, p: int, execution: string, effect: EffectRequest)
    requires LogInv(log) && PreparedAt(log, p, execution, effect)
    requires forall r :: !IsSlot(log, r, execution, effect.effectId, ReceiptSlot)
    ensures TerminalOf(log, execution, effect).None?
  {
    var events := EventsOf(log, execution, 0);
    EventsOfIsExact(log, execution, 0);
    forall i | 0 <= i < |events| ensures Verdict(events[i], execution, effect).None? {
      if Verdict(events[i], execution, effect).Some? {
        assert events[i] in events;
        var j :| 0 <= j < |log| && log[j] == events[i];
        var r := VerdictsFollowReceipt(log, p, j, execution, effect);
      }
    }
    NoVerdictNoTerminal(events, |events|, execution, effect);
  }

  // ------------------------------------------------------------- late callers

  /** The reply is the disposition of the effect's receipt. */
  ghost predicate IsReceiptReply(log: seq<Event>, c: Caller, reply: Reply<Disposition>) {
    exists r :: IsSlot(log, r, c.key.executionId, c.effect.effectId, ReceiptSlot) && log[r].payload.Outcome?
                && reply == Ok(DetailDisposition(log[r].payload.detail))
  }

  /** What a late caller may report; `receipt` says whether the receipt was there when it arrived. */
  ghost predicate LateReply(log: seq<Event>, c: Caller, receipt: bool, reply: Reply<Disposition>) {
    || (reply == Ok(Cancelled) && IsCancelled(log, c.key.executionId))
    || IsReceiptReply(log, c, reply)
    || (!receipt && reply == Ok(Uncertain(ReconciliationRequired)))
  }

  /** A caller of an already started generic effect with the request that was prepared. */
  ghost predicate Late(log: seq<Event>, c: Caller, receipt: bool) {
    && PreparedLogged(log, c)
    && (exists s :: IsSlot(log, s, c.key.executionId, c.effect.effectId, StartedSlot))
    && (receipt ==> HasReceipt(log, c))
    && !c.entered && !c.executed
    && match c.pc
       case ReadStatus | ReadPrepared | ReadTerminal | Crashed => true
       case LookupFact(goal) => goal == PreparedGoal
       case ReadStarted => !receipt
       case Done(reply) => LateReply(log, c, receipt, reply)
       case _ => false
  }

  lemma PreparedOf(log: seq<Event>, c: Caller) returns (p: int)
    requires LogInv(log) && PreparedLogged(log, c)
    ensures PreparedAt(log, p, c.key.executionId, c.effect)
    ensures Find(log, EffectId(c.key.executionId, c.effect.effectId, PreparedSlot)) == Some(log[p])
    ensures IsEvidence(log[p], c.key, EffectId(c.key.executionId, c.effect.effectId, PreparedSlot), EffectPrepared)
    ensures RequestValid(c.effect) && c.key.executionId != ""
  {
    p := LoggedAt(log, GoalFact(c.key, c.effect, PreparedGoal));
    FoundIfThere(log, p);
    assert Chained(log, p);
  }

  lemma LateIsStable(log: seq<Event>, longer: seq<Event>, c: Caller, receipt: bool)
    requires log <= longer && Late(log, c, receipt)
    ensures Late(longer, c, receipt)
  {
    LoggedIsStable(log, longer, GoalFact(c.key, c.effect, PreparedGoal));
    var s :| IsSlot(log, s, c.key.executionId, c.effect.effectId, StartedSlot);
    assert IsSlot(longer, s, c.key.executionId, c.effect.effectId, StartedSlot);
    if HasReceipt(log, c) {
      var r :| IsSlot(log, r, c.key.executionId, c.effect.effectId, ReceiptSlot);
      assert IsSlot(longer, r, c.key.executionId, c.effect.effectId, ReceiptSlot);
    }
    if c.pc.Done? { LateReplyIsStable(log, longer, c, receipt, c.pc.reply); }
  }

  lemma LateReplyIsStable(log: seq<Event>, longer: seq<Event>, c: Caller, receipt: bool, reply: Reply<Disposition>)
    requires log <= longer && LateReply(log, c, receipt, reply)
    ensures LateReply(longer, c, receipt, reply)
  {
    if IsReceiptReply(log, c, reply) {
      var r :| IsSlot(log, r, c.key.executionId, c.effect.effectId, ReceiptSlot) && log[r].payload.Outcome?
               && reply == Ok(DetailDisposition(log[r].payload.detail));
      assert IsSlot(longer, r, c.key.executionId, c.effect.effectId, ReceiptSlot);
    } else if reply == Ok(Cancelled) {
      var i :| 0 <= i < |log| && log[i].executionId == c.key.executionId && log[i].kind == ExecutionCancelled;
      assert longer[i] == log[i];
    }
  }

  /** Where the terminal read takes a late caller. */
  lemma LateTerminal(log: seq<Event>, c: Caller, receipt: bool)
    requires LogInv(log) && Late(log, c, receipt)
    ensures match TerminalOf(log, c.key.executionId, c.effect)
            case Some(reply) => IsReceiptReply(log, c, reply)
            case None => !receipt && !HasReceipt(log, c)
  {
    var p := PreparedOf(log, c);
    if HasReceipt(log, c) {
      var r :| IsSlot(log, r, c.key.executionId, c.effect.effectId, ReceiptSlot);
      TerminalIsReceipt(log, p, r, c.key.executionId, c.effect);
    } else {
      NoReceiptNoTerminal(log, p, c.key.executionId, c.effect);
    }
  }

  /** A step of a late caller writes nothing, calls nobody and leaves it late. */
  lemma LateStep(lib: Library, log: seq<Event>, c: Caller, receipt: bool, answers: Answers)
    requires LogInv(log) && Late(log, c, receipt)
    ensures var r := CallerStep(lib, log, c, answers);
            r.log == log && Late(log, r.caller, receipt) && r.caller.key == c.key && r.caller.effect == c.effect
  {
    var p := PreparedOf(log, c);
    match c.pc
    case ReadStatus => StatusIsCancelled(log, c.key.executionId);
    case ReadTerminal => LateTerminal(log, c, receipt);
    case ReadStarted =>
      var s :| IsSlot(log, s, c.key.executionId, c.effect.effectId, StartedSlot);
      FoundIfThere(log, s);
    case _ =>
  }

  /** Caller `id` runs this request and is late. */
  ghost predicate LateIn(s: State, id: nat, key: ExecutionKey, effect: EffectRequest, receipt: bool) {
    && id in s.callers && s.callers[id].key == key && s.callers[id].effect == effect
    && Late(s.log, s.callers[id], receipt)
  }

  lemma LateOwnStep(lib: Library, s: State, id: nat, key: ExecutionKey, effect: EffectRequest, receipt: bool, answers: Answers)
    requires LogInv(s.log) && LateIn(s, id, key, effect, receipt)
    ensures var t := Next(lib, s, Step(id, answers));
            LateIn(t, id, key, effect, receipt) && t.log == s.log && t.calls == s.calls
  {
    LateStep(lib, s.log, s.callers[id], receipt, answers);
  }

  lemma LateOtherStep(lib: Library, s: State, id: nat, key: ExecutionKey, effect: EffectRequest, receipt: bool,
                      other: nat, answers: Answers)
    requires Inv(s) && LateIn(s, id, key, effect, receipt) && other != id
    ensures LateIn(Next(lib, s, Step(other, answers)), id, key, effect, receipt)
  {
    if other in s.callers {
      CallerStepKeeps(lib, s.log, s.callers[other], answers);
      LateIsStable(s.log, CallerStep(lib, s.log, s.callers[other], answers).log, s.callers[id], receipt);
    }
  }

  lemma LateNext(lib: Library, s: State, id: nat, key: ExecutionKey, effect: EffectRequest, receipt: bool, action: Action)
    requires Inv(s) && LateIn(s, id, key, effect, receipt)
    ensures LateIn(Next(lib, s, action), id, key, effect, receipt)
  {
    match action
    case Spawn(other, _, _) =>
    case Crash(other) =>
    case Step(other, answers) =>
      if other == id { LateOwnStep(lib, s, id, key, effect, receipt, answers); }
      else { LateOtherStep(lib, s, id, key, effect, receipt, other, answers); }
    case Foreign(event, checkCancel) =>
      LateIsStable(s.log, Next(lib, s, action).log, s.callers[id], receipt);
  }

  ghost predicate LateState(s: State, id: nat, key: ExecutionKey, effect: EffectRequest, receipt: bool) {
    Inv(s) && LateIn(s, id, key, effect, receipt)
  }

  lemma LateStays(lib: Library, s: State, id: nat, key: ExecutionKey, effect: EffectRequest, receipt: bool, action: Action)
    requires LateState(s, id, key, effect, receipt)
    ensures LateState(Next(lib, s, action), id, key, effect, receipt)
  {
    NextKeepsInv(lib, s, action);
    LateNext(lib, s, id, key, effect, receipt, action);
  }

  lemma {:induction false} LateRun(lib: Library, s: State, id: nat, key: ExecutionKey, effect: EffectRequest, receipt: bool,
                                   after: seq<Action>, n: nat)
    requires n <= |after| && LateState(s, id, key, effect, receipt)
    ensures LateState(RunUpTo(lib, s, after, n), id, key, effect, receipt)
  {
    if n > 0 {
      LateRun(lib, s, id, key, effect, receipt, after, n - 1);
      LateStays(lib, RunUpTo(lib, s, after, n - 1), id, key, effect, receipt, after[n - 1]);
    }
  }

  /**
   Replay. From any reachable state, a caller that arrives once its effect has
   started (and, with `receipt`, has its receipt) with the prepared request stays
   late through every continuation: it never enters the effect, none of its
   steps writes or calls a port, and what it reports is the receipt's disposition,
   the cancellation of the execution, or, only when there was no receipt as it
   arrived, that reconciliation is required.
   */
  lemma ReplayNeverExecutes(lib: Library, before: seq<Action>, id: nat, key: ExecutionKey, effect: EffectRequest,
                            receipt: bool, after: seq<Action>, answers: Answers)
    requires var s := Run(lib, INITIAL, before);
             LateIn(s, id, key, effect, receipt) && s.callers[id].pc == ReadStatus
    ensures var t := Run(lib, Run(lib, INITIAL, before), after);
            var u := Next(lib, t, Step(id, answers));
            LateIn(t, id, key, effect, receipt) && u.log == t.log && u.calls == t.calls
  {
    RunKeepsInv(lib, INITIAL, before, |before|);
    var s := Run(lib, INITIAL, before);
    LateRun(lib, s, id, key, effect, receipt, after, |after|);
    LateOwnStep(lib, Run(lib, s, after), id, key, effect, receipt, answers);
  }
}
