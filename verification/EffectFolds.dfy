/**
 What reading an execution's events amounts to, said of the events themselves: its
 status, and the terminal result of one of its effects.
 */
module EffectFolds {
  import opened Wrappers
  import opened LedgerTypes
  import opened Ledger
  import opened ToolEvidence
  import opened EffectProtocol
  import opened EffectReplay

  // --------------------------------------------------------------------- the status

  /** The status an event of this kind stands for, if it bears on the status. */
  function MarkOf(kind: Kind): Option<Status> {
    if kind == ExecutionStarted then Some(Running)
    else if kind == ExecutionSuspended then Some(SuspendedStatus)
    else if kind == EffectCompleted then Some(CompletedStatus)
    else if kind == EffectFailed then Some(FailedStatus)
    else if kind == EffectUncertain then Some(UncertainStatus)
    else if kind == ExecutionCancelled then Some(CancelledStatus)
    else None
  }

  function MarksOf(events: seq<Event>): (marks: seq<Option<Status>>)
    ensures |marks| == |events| && forall k :: 0 <= k < |events| ==> marks[k] == MarkOf(events[k].kind)
  {
    seq(|events|, k requires 0 <= k < |events| => MarkOf(events[k].kind))
  }

  /** Mark `i` is the last one. */
  ghost predicate IsLastMark(marks: seq<Option<Status>>, n: nat, i: int)
    requires n <= |marks|
  {
    0 <= i < n && marks[i].Some? && forall k :: i < k < n ==> marks[k].None?
  }

  ghost predicate HasMark(marks: seq<Option<Status>>, n: nat, status: Status)
    requires n <= |marks|
  {
    exists i :: 0 <= i < n && marks[i] == Some(status)
  }

  /** Cancelled if any event says so, otherwise what the last mark says. */
  ghost predicate IsStatus(marks: seq<Option<Status>>, n: nat, status: Option<Status>)
    requires n <= |marks|
  {
    if HasMark(marks, n, CancelledStatus) then status == Some(CancelledStatus)
    else if status.None? then forall k :: 0 <= k < n ==> marks[k].None?
    else exists i :: IsLastMark(marks, n, i) && marks[i] == status
  }

  lemma StatusStep(marks: seq<Option<Status>>, n: nat, earlier: Option<Status>)
    requires 0 < n <= |marks| && IsStatus(marks, n - 1, earlier)
    ensures IsStatus(marks, n, if earlier == Some(CancelledStatus) || marks[n - 1].None? then earlier else marks[n - 1])
  {
    if HasMark(marks, n - 1, CancelledStatus) {
      assert HasMark(marks, n, CancelledStatus);
    } else if marks[n - 1].Some? {
      assert IsLastMark(marks, n, n - 1);
    } else if earlier.Some? {
      var i :| IsLastMark(marks, n - 1, i) && marks[i] == earlier;
      assert IsLastMark(marks, n, i);
    }
  }

  lemma FoldStep(events: seq<Event>, n: nat)
    requires 0 < n <= |events|
    ensures var earlier, mark := StatusUpTo(events, n - 1), MarkOf(events[n - 1].kind);
            StatusUpTo(events, n) == if earlier == Some(CancelledStatus) || mark.None? then earlier else mark
  {
  }

  lemma {:induction false} FoldIsStatus(events: seq<Event>, marks: seq<Option<Status>>, n: nat)
    requires n <= |events| && marks == MarksOf(events)
    ensures IsStatus(marks, n, StatusUpTo(events, n))
  {
    if n == 0 {
      NothingIsNoStatus(events, marks);
    } else {
      FoldIsStatus(events, marks, n - 1);
      FoldedStep(events, marks, n);
    }
  }

  lemma FoldedStep(events: seq<Event>, marks: seq<Option<Status>>, n: nat)
    requires 0 < n <= |events| && marks == MarksOf(events) && IsStatus(marks, n - 1, StatusUpTo(events, n - 1))
    ensures IsStatus(marks, n, StatusUpTo(events, n))
  {
    var earlier := StatusUpTo(events, n - 1);
    FoldStep(events, n);
    StatusStep(marks, n, earlier);
  }

  lemma NothingIsNoStatus(events: seq<Event>, marks: seq<Option<Status>>)
    ensures StatusUpTo(events, 0).None? && IsStatus(marks, 0, None)
  {
  }

  lemma StatusIsUnique(marks: seq<Option<Status>>, n: nat, s: Option<Status>, t: Option<Status>)
    requires n <= |marks| && IsStatus(marks, n, s) && IsStatus(marks, n, t)
    ensures s == t
  {
    if !HasMark(marks, n, CancelledStatus) && s.Some? && t.Some? {
      var i :| IsLastMark(marks, n, i) && marks[i] == s;
      var j :| IsLastMark(marks, n, j) && marks[j] == t;
      assert i == j;
    }
  }

  /** The status of an execution is that of its last event that bears on it, and cancelled once it is cancelled. */
  lemma StatusExactlyWhen(log: seq<Event>, execution: string, status: Option<Status>)
    ensures var marks := MarksOf(EventsOf(log, execution, 0));
            StatusOf(log, execution) == status <==> IsStatus(marks, |marks|, status)
  {
    var events := EventsOf(log, execution, 0);
    FoldIsStatus(events, MarksOf(events), |events|);
    if IsStatus(MarksOf(events), |events|, status) {
      StatusIsUnique(MarksOf(events), |events|, status, StatusUpTo(events, |events|));
    }
  }

  // ------------------------------------------------------------ the terminal result

  /** What a detail is reported as. */
  predicate Reports(detail: Detail, reply: Reply<Disposition>) {
    match detail
    case Output(output) => reply == Ok(Completed(output))
    case Code(code) => reply == Ok(Failed(code))
    case Evidence(evidence) => reply == Ok(Uncertain(Said(evidence)))
  }

  predicate IsStatusOf(detail: Detail, status: ReceiptStatus) {
    match detail
    case Output(_) => status == ReceiptCompleted
    case Code(_) => status == ReceiptFailed
    case Evidence(_) => status == ReceiptUncertain
  }

  /** A receipt says what it carries if it is this request's and its status fits, and is refused otherwise. */
  predicate ReceiptTells(payload: Payload, effect: EffectRequest, reply: Reply<Disposition>) {
    match payload
    case Outcome(receipt, detail) =>
      if receipt.effectId == effect.effectId && receipt.inputDigest == effect.inputDigest && IsStatusOf(detail, receipt.status)
      then Reports(detail, reply) else reply == Err(Invalid)
    case ToolReceipt(_, _, _, _, _, receipt, Ok(output), _) =>
      reply == if receipt.effectId == effect.effectId && receipt.inputDigest == effect.inputDigest && receipt.status == ReceiptCompleted
               then Ok(Completed(ToolJson(output))) else Err(Invalid)
    case _ => reply == Err(Invalid)
  }

  lemma ReceiptTellsExactly(payload: Payload, effect: EffectRequest, reply: Reply<Disposition>)
    ensures ReceiptDisposition(payload, effect) == reply <==> ReceiptTells(payload, effect, reply)
  {
  }

  /** The event is the effect's receipt, or a projection. */
  predicate IsTerminalEvent(event: Event, execution: string, effect: EffectRequest) {
    exists slot | slot in {ReceiptSlot, CompletedSlot, FailedSlot, UncertainSlot} :: event.eventId == EffectId(execution, effect.effectId, slot)
  }

  /** A projection in its own slot is reported as its detail. */
  predicate ProjectionTells(event: Event, reply: Reply<Disposition>)
    requires event.payload.Projection? && event.eventId.EffectId?
  {
    match event.payload.detail
    case Output(output) => event.eventId.slot == CompletedSlot ==> reply == Ok(Completed(output))
    case Code(code) => event.eventId.slot == FailedSlot ==> reply == Ok(Failed(code))
    case Evidence(evidence) => event.eventId.slot == UncertainSlot ==> reply == Ok(Uncertain(Said(evidence)))
  }

  /** What the first terminal event tells: a receipt by its contents, a projection by its slot. */
  predicate Tells(event: Event, effect: EffectRequest, reply: Reply<Disposition>)
    requires event.eventId.EffectId?
  {
    match event.eventId.slot
    case ReceiptSlot => ReceiptTells(event.payload, effect, reply)
    case CompletedSlot => reply.Ok? && reply.value.Completed? && (event.payload.Projection? ==> ProjectionTells(event, reply))
    case FailedSlot => reply.Ok? && reply.value.Failed? && (event.payload.Projection? ==> ProjectionTells(event, reply))
    case UncertainSlot => reply.Ok? && reply.value.Uncertain? && (event.payload.Projection? ==> ProjectionTells(event, reply))
    case _ => false
  }

  lemma VerdictTells(event: Event, execution: string, effect: EffectRequest)
    ensures Verdict(event, execution, effect).Some? <==> IsTerminalEvent(event, execution, effect)
    ensures Verdict(event, execution, effect).Some? ==>
              event.eventId.EffectId? && Tells(event, effect, Verdict(event, execution, effect).value)
  {
    if Verdict(event, execution, effect).Some? {
      assert event.eventId.slot in {ReceiptSlot, CompletedSlot, FailedSlot, UncertainSlot};
    }
  }

  /** Event `i` is the effect's first terminal one. */
  ghost predicate IsFirstTerminal(events: seq<Event>, i: int, execution: string, effect: EffectRequest) {
    0 <= i < |events| && IsTerminalEvent(events[i], execution, effect)
    && forall k :: 0 <= k < i ==> !IsTerminalEvent(events[k], execution, effect)
  }

  /** The terminal result is what the first terminal event of the effect tells; there is none without one. */
  lemma TerminalIsFirst(log: seq<Event>, execution: string, effect: EffectRequest)
    ensures var events, terminal := EventsOf(log, execution, 0), TerminalOf(log, execution, effect);
            && (terminal.None? <==> forall k :: 0 <= k < |events| ==> !IsTerminalEvent(events[k], execution, effect))
            && (terminal.Some? ==>
                  exists i :: IsFirstTerminal(events, i, execution, effect) && events[i].eventId.EffectId?
                              && Tells(events[i], effect, terminal.value))
  {
    var events := EventsOf(log, execution, 0);
    forall k | 0 <= k < |events| ensures Verdict(events[k], execution, effect).Some? <==> IsTerminalEvent(events[k], execution, effect) {
      VerdictTells(events[k], execution, effect);
    }
    if i :| IsFirstTerminal(events, i, execution, effect) {
      FirstVerdictWins(events, i, |events|, execution, effect);
      VerdictTells(events[i], execution, effect);
    } else {
      NoFirstNone(events, |events|, execution, effect);
      NoVerdictNoTerminal(events, |events|, execution, effect);
    }
  }

  lemma {:induction false} NoFirstNone(events: seq<Event>, n: nat, execution: string, effect: EffectRequest)
    requires n <= |events| && forall i :: !IsFirstTerminal(events, i, execution, effect)
    ensures forall k :: 0 <= k < n ==> !IsTerminalEvent(events[k], execution, effect)
  {
    if n > 0 {
      NoFirstNone(events, n - 1, execution, effect);
      assert !IsFirstTerminal(events, n - 1, execution, effect);
    }
  }
}
