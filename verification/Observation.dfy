/**
 Bounded process telemetry. Events travel in two bounded queues, one for
 lifecycle events and one for output, and the receiver merges them again. The
 class is proved against a single first-in first-out queue.
 */
module Observation {
  import opened Wrappers

  const MAX_CAPACITY: nat := 1024
  const MAX_CONTEXT_BYTES: nat := 4096
  const U64_MAX: nat := 0xffff_ffff_ffff_ffff

  /** Counting on 64 bits. */
  function Wrap(n: nat): nat {
    if n <= U64_MAX then n else Wrap(n - U64_MAX - 1)
  }

  lemma {:induction false} WrapSum(a: nat, b: nat)
    ensures Wrap(Wrap(a) + Wrap(b)) == Wrap(a + b)
  {
    if a > U64_MAX { WrapSum(a - U64_MAX - 1, b); }
    else if b > U64_MAX { WrapSum(a, b - U64_MAX - 1); }
  }

  /** Counting wraps around at 2 to the 64th. */
  lemma {:induction false} WrapIsRemainder(n: nat)
    ensures Wrap(n) == n % 0x1_0000_0000_0000_0000
  {
    if n > U64_MAX { WrapIsRemainder(n - 0x1_0000_0000_0000_0000); }
  }

  lemma WrapNext(n: nat)
    ensures Wrap(Wrap(n) + 1) == Wrap(n + 1)
  {
    WrapSum(n, 1);
  }

  datatype ProcessEvent =
    | Spawned
    | OutputObserved(errorStream: bool, bytes: seq<bv8>)
    | CancellationObserved(explicit: bool)
    | TerminationAttempted(error: Option<string>)
    | Reaped(exitCode: Option<int>, signal: Option<int>)
    | GroupCleanup(error: Option<string>)
    | CaptureCompleted(errorStream: bool, retained: nat, error: Option<string>)
    | CleanupFailed(failure: string)

  datatype Observation = Observation(launch: string, context: string, event: ProcessEvent, errorsTruncated: bool) {
    predicate IsOutput() { event.OutputObserved? }
  }

  datatype Sequenced = Sequenced(sequence: nat, observation: Observation)

  /** What a receive answers: an event, nothing yet, or the end. */
  datatype Reception = Item(observation: Observation) | Nothing | Finished

  // ------------------------------------------------------- the one-queue account

  /**
   One queue. `accepted` lists every accepted event in order and `delivered`
   those received. `lifecycleHeld` and `outputHeld` say that the oldest waiting
   event of that kind no longer takes room in its bounded queue.
   */
  datatype Fifo = Fifo(
    accepted: seq<Observation>,
    delivered: seq<Observation>,
    lifecycleHeld: bool,
    outputHeld: bool,
    receiving: bool,
    emits: nat,
    emitLosses: nat)
  {
    predicate Held(output: bool) { if output then outputHeld else lifecycleHeld }

    predicate HasWaiting() { receiving && |delivered| < |accepted| }

    /** The oldest waiting event. */
    function Next(): Option<Observation> {
      if HasWaiting() then Some(accepted[|delivered|]) else None
    }
  }

  const NEW_FIFO := Fifo([], [], false, false, true, 0, 0)

  /** The accepted events of one kind from `first` up to `n`, each with its number. */
  function Numbered(accepted: seq<Observation>, output: bool, first: nat, n: nat): seq<Sequenced>
    requires n <= |accepted|
  {
    if n <= first then []
    else if accepted[n - 1].IsOutput() == output
    then Numbered(accepted, output, first, n - 1) + [Sequenced(n - 1, accepted[n - 1])]
    else Numbered(accepted, output, first, n - 1)
  }

  /** The waiting events of one kind. */
  function WaitingEvents(f: Fifo, output: bool): seq<Sequenced> {
    if f.receiving then Numbered(f.accepted, output, |f.delivered|, |f.accepted|) else []
  }

  ghost predicate LaneCarries(lane: Lane, f: Fifo, capacity: nat, output: bool) {
    Carries(lane, WaitingEvents(f, output), f.Held(output), capacity)
  }

  /** An event of this kind is accepted: someone receives, a number is left, and its queue has room. */
  predicate HasRoom(f: Fifo, capacity: nat, output: bool) {
    f.receiving && |f.accepted| < U64_MAX && |WaitingEvents(f, output)| < capacity + if f.Held(output) then 1 else 0
  }

  function Emitted(f: Fifo, capacity: nat, o: Observation): Fifo {
    if HasRoom(f, capacity, o.IsOutput())
    then f.(accepted := f.accepted + [o], emits := f.emits + 1)
    else f.(emits := f.emits + 1, emitLosses := f.emitLosses + 1)
  }

  /** Both oldest waiting events have been looked at. */
  function Inspected(f: Fifo): Fifo {
    f.(lifecycleHeld := f.lifecycleHeld || WaitingEvents(f, false) != [], outputHeld := f.outputHeld || WaitingEvents(f, true) != [])
  }

  /** Every lane with waiting events has its head. */
  predicate AllHeld(f: Fifo) {
    && (WaitingEvents(f, false) != [] ==> f.lifecycleHeld)
    && (WaitingEvents(f, true) != [] ==> f.outputHeld)
  }

  /** A receive: the oldest waiting event leaves. */
  function Received(f: Fifo): Fifo {
    var g := Inspected(f);
    if !f.HasWaiting() then g
    else
      var next := f.accepted[|f.delivered|];
      var h := g.(delivered := g.delivered + [next]);
      if next.IsOutput() then h.(outputHeld := false) else h.(lifecycleHeld := false)
  }

  // ------------------------------------------------------------- numbered lanes

  /** The first number is the head of its own kind's lane, and in no other lane. */
  lemma {:induction false} NumberedHead(accepted: seq<Observation>, output: bool, first: nat, n: nat)
    requires first < n <= |accepted|
    ensures Numbered(accepted, output, first, n)
            == (if accepted[first].IsOutput() == output then [Sequenced(first, accepted[first])] else [])
               + Numbered(accepted, output, first + 1, n)
  {
    if first + 1 < n { NumberedHead(accepted, output, first, n - 1); }
  }

  lemma {:induction false} NumberedOfPrefix(accepted: seq<Observation>, longer: seq<Observation>, output: bool, first: nat, n: nat)
    requires accepted <= longer && n <= |accepted|
    ensures Numbered(longer, output, first, n) == Numbered(accepted, output, first, n)
  {
    if first < n { NumberedOfPrefix(accepted, longer, output, first, n - 1); }
  }

  lemma {:induction false} KindsAddUp(accepted: seq<Observation>, first: nat, n: nat)
    requires first <= n <= |accepted|
    ensures |Numbered(accepted, false, first, n)| + |Numbered(accepted, true, first, n)| == n - first
  {
    if first < n { KindsAddUp(accepted, first, n - 1); }
  }

  // ----------------------------------------------------------------------- lanes

  /** One bounded queue, its merge head and its live senders. */
  datatype Lane = Lane(head: Option<Sequenced>, queue: seq<Sequenced>, senders: nat) {
    function Events(): seq<Sequenced> {
      (if head.Some? then [head.value] else []) + queue
    }
  }

  /** Take the oldest queued event as the head, unless there is one; say whether the lane is closed. */
  function FilledHead(lane: Lane): (r: (Lane, bool))
    ensures r.0.Events() == lane.Events() && r.0.senders == lane.senders
    ensures r.0.head.Some? <==> lane.Events() != []
    ensures r.1 <==> lane.Events() == [] && lane.senders == 0
  {
    if lane.head.Some? then (lane, false)
    else if lane.queue != [] then (lane.(head := Some(lane.queue[0]), queue := lane.queue[1..]), false)
    else (lane, lane.senders == 0)
  }

  /** The lane holds exactly these events, in order and within its bound; `held` if it has a head. */
  ghost predicate Carries(lane: Lane, events: seq<Sequenced>, held: bool, capacity: nat) {
    |lane.queue| <= capacity && (lane.head.Some? <==> held) && lane.Events() == events
  }

  lemma FilledCarries(lane: Lane, events: seq<Sequenced>, held: bool, capacity: nat)
    requires Carries(lane, events, held, capacity)
    ensures Carries(FilledHead(lane).0, events, held || events != [], capacity)
  {
  }

  lemma SentCarries(lane: Lane, events: seq<Sequenced>, held: bool, capacity: nat, x: Sequenced)
    requires Carries(lane, events, held, capacity) && |lane.queue| < capacity
    ensures Carries(lane.(queue := lane.queue + [x]), events + [x], held, capacity)
  {
    assert lane.(queue := lane.queue + [x]).Events() == lane.Events() + [x];
  }

  lemma TakenCarries(lane: Lane, x: Sequenced, rest: seq<Sequenced>, capacity: nat)
    requires Carries(lane, [x] + rest, true, capacity)
    ensures lane.head == Some(x) && Carries(lane.(head := None), rest, false, capacity)
  {
    assert lane.Events()[0] == x && lane.Events()[1..] == lane.queue;
    assert ([x] + rest)[1..] == rest;
  }

  ghost predicate FifoValid(f: Fifo) {
    && f.delivered <= f.accepted && |f.accepted| <= U64_MAX
    && f.emits == |f.accepted| + f.emitLosses
    && (!f.receiving ==> !f.lifecycleHeld && !f.outputHeld)
  }

  /** An accepted event joins its own kind's waiting events, and no other's. */
  lemma EmittedWaits(f: Fifo, o: Observation, output: bool)
    requires FifoValid(f) && f.receiving
    ensures var g := f.(accepted := f.accepted + [o]);
            WaitingEvents(g, output)
            == WaitingEvents(f, output) + if o.IsOutput() == output then [Sequenced(|f.accepted|, o)] else []
  {
    NumberedOfPrefix(f.accepted, f.accepted + [o], output, |f.delivered|, |f.accepted|);
  }

  /** A delivered event was the first of its own kind's waiting events. */
  lemma ReceivedWaits(f: Fifo, output: bool)
    requires FifoValid(f) && f.HasWaiting()
    ensures var next := f.accepted[|f.delivered|];
            WaitingEvents(f, output)
            == (if next.IsOutput() == output then [Sequenced(|f.delivered|, next)] else [])
               + WaitingEvents(Received(f), output)
    ensures forall e :: e in WaitingEvents(Received(f), output) ==> e.sequence > |f.delivered|
  {
    NumberedHead(f.accepted, output, |f.delivered|, |f.accepted|);
    NumberedNames(f.accepted, output, |f.delivered| + 1, |f.accepted|);
  }

  /** The smaller head, and the lanes without it. */
  function Smaller(life: Lane, out: Lane): (Option<Observation>, Lane, Lane) {
    if life.head.Some? && (out.head.None? || life.head.value.sequence < out.head.value.sequence)
    then (Some(life.head.value.observation), life.(head := None), out)
    else (if out.head.Some? then Some(out.head.value.observation) else None, life, out.(head := None))
  }

  /** The lane of the next event's kind has it as its head, and loses it; the other has a later head, if any. */
  lemma NextIsHead(own: Lane, other: Lane, f: Fifo, capacity: nat, next: Observation)
    requires FifoValid(f) && f.Next() == Some(next) && AllHeld(f)
    requires LaneCarries(own, f, capacity, next.IsOutput()) && LaneCarries(other, f, capacity, !next.IsOutput())
    ensures own.head == Some(Sequenced(|f.delivered|, next))
    ensures other.head.Some? ==> other.head.value.sequence > |f.delivered|
    ensures LaneCarries(own.(head := None), Received(f), capacity, next.IsOutput())
    ensures LaneCarries(other, Received(f), capacity, !next.IsOutput())
  {
    ReceivedWaits(f, next.IsOutput());
    ReceivedWaits(f, !next.IsOutput());
    TakenCarries(own, Sequenced(|f.delivered|, next), WaitingEvents(Received(f), next.IsOutput()), capacity);
    if other.head.Some? { assert other.head.value == other.Events()[0]; }
  }

  /** The two lanes stand for the one queue. */
  ghost predicate Represent(life: Lane, out: Lane, f: Fifo, capacity: nat) {
    FifoValid(f) && LaneCarries(life, f, capacity, false) && LaneCarries(out, f, capacity, true)
  }

  lemma SendersRepresent(life: Lane, out: Lane, f: Fifo, capacity: nat, a: nat, b: nat)
    requires Represent(life, out, f, capacity)
    ensures Represent(life.(senders := a), out.(senders := b), f, capacity)
    ensures !f.HasWaiting() ==> life.Events() == [] && out.Events() == []
  {
  }

  /** Looking at both queues gives every lane with waiting events its head. */
  lemma FilledRepresent(life: Lane, out: Lane, f: Fifo, capacity: nat)
    requires Represent(life, out, f, capacity) && f.receiving
    ensures Represent(FilledHead(life).0, FilledHead(out).0, Inspected(f), capacity) && AllHeld(Inspected(f))
    ensures !f.HasWaiting() ==> WaitingEvents(f, false) == [] && WaitingEvents(f, true) == []
  {
    FilledCarries(life, WaitingEvents(f, false), f.lifecycleHeld, capacity);
    FilledCarries(out, WaitingEvents(f, true), f.outputHeld, capacity);
  }

  /** Once both queues were looked at, the smaller head is the oldest waiting event. */
  lemma SmallerIsNext(life: Lane, out: Lane, f: Fifo, capacity: nat)
    requires Represent(life, out, f, capacity) && f.receiving && AllHeld(f)
    ensures Smaller(life, out).0 == f.Next()
    ensures Represent(Smaller(life, out).1, Smaller(life, out).2, Received(f), capacity)
    ensures Smaller(life, out).1.senders == life.senders && Smaller(life, out).2.senders == out.senders
    ensures Received(f).receiving && |Received(f).accepted| == |f.accepted| && Received(f).emitLosses == f.emitLosses
  {
    ReceivedIsValid(f);
    if f.Next().None? {
      NumberedNothing(f);
    } else if f.Next().value.IsOutput() {
      NextIsHead(out, life, f, capacity, f.Next().value);
    } else {
      NextIsHead(life, out, f, capacity, f.Next().value);
    }
  }

  /** An offered event is accepted exactly when its own lane can take it; the other lane is as it was. */
  lemma EmittedCarries(own: Lane, other: Lane, f: Fifo, capacity: nat, o: Observation)
    requires FifoValid(f)
    requires LaneCarries(own, f, capacity, o.IsOutput()) && LaneCarries(other, f, capacity, !o.IsOutput())
    ensures FifoValid(Emitted(f, capacity, o)) && LaneCarries(other, Emitted(f, capacity, o), capacity, !o.IsOutput())
    ensures if f.receiving && |f.accepted| < U64_MAX && |own.queue| < capacity
            then HasRoom(f, capacity, o.IsOutput())
                 && LaneCarries(own.(queue := own.queue + [Sequenced(|f.accepted|, o)]), Emitted(f, capacity, o), capacity, o.IsOutput())
            else !HasRoom(f, capacity, o.IsOutput()) && LaneCarries(own, Emitted(f, capacity, o), capacity, o.IsOutput())
  {
    if HasRoom(f, capacity, o.IsOutput()) {
      EmittedWaits(f, o, o.IsOutput());
      EmittedWaits(f, o, !o.IsOutput());
      SentCarries(own, WaitingEvents(f, o.IsOutput()), f.Held(o.IsOutput()), capacity, Sequenced(|f.accepted|, o));
    }
  }

  lemma NumberedNothing(f: Fifo)
    requires FifoValid(f) && !f.HasWaiting()
    ensures WaitingEvents(f, false) == [] && WaitingEvents(f, true) == []
  {
  }

  lemma ReceivedIsValid(f: Fifo)
    requires FifoValid(f) && f.receiving
    ensures FifoValid(Received(f)) && Received(f).accepted == f.accepted && Received(f).receiving == f.receiving
    ensures Received(f).emitLosses == f.emitLosses
  {
  }

  // ------------------------------------------------------------------- the class

  class Channel {
    const capacity: nat
    var lifecycle: Lane
    var output: Lane
    var sequence: nat
    var receiving: bool
    var dropped: nat
    var lifecycleDropped: nat
    var outputDropped: nat
    /** The one queue this channel stands for. */
    ghost var fifo: Fifo
    /** Losses of each kind, those reported without an event, and those not yet in the total. */
    ghost var lifecycleLosses: nat
    ghost var outputLosses: nat
    ghost var reportedLosses: nat
    ghost var uncounted: nat

    ghost predicate Valid()
      reads this
    {
      && 1 <= capacity <= MAX_CAPACITY
      && Represent(lifecycle, output, fifo, capacity)
      && receiving == fifo.receiving && sequence == |fifo.accepted|
      && lifecycle.senders <= output.senders
      && LossesValid()
    }

    ghost predicate LossesValid()
      reads this
    {
      && lifecycleLosses + outputLosses == fifo.emitLosses + reportedLosses
      && uncounted <= lifecycleLosses + outputLosses
      && lifecycleDropped == Wrap(lifecycleLosses)
      && outputDropped == Wrap(outputLosses)
      && dropped == Wrap(lifecycleLosses + outputLosses - uncounted)
    }

    constructor (capacity: nat)
      requires 1 <= capacity <= 1024
      ensures Valid() && fifo == NEW_FIFO && this.capacity == capacity
      ensures lifecycle.senders == output.senders == 1 && uncounted == 0 && reportedLosses == 0
    {
      this.capacity := capacity;
      lifecycle, output := Lane(None, [], 1), Lane(None, [], 1);
      sequence, receiving := 0, true;
      dropped, lifecycleDropped, outputDropped := 0, 0, 0;
      fifo, lifecycleLosses, outputLosses, reportedLosses, uncounted := NEW_FIFO, 0, 0, 0, 0;
    }

    /** The first of a loss's two counts; the total follows in a step of its own. */
    method CountLoss(isOutput: bool)
      requires lifecycleDropped == Wrap(lifecycleLosses) && outputDropped == Wrap(outputLosses)
      modifies this`lifecycleDropped, this`outputDropped, this`lifecycleLosses, this`outputLosses, this`uncounted
      ensures uncounted == old(uncounted) + 1
      ensures outputLosses == old(outputLosses) + (if isOutput then 1 else 0)
      ensures lifecycleLosses == old(lifecycleLosses) + (if isOutput then 0 else 1)
      ensures lifecycleDropped == Wrap(lifecycleLosses) && outputDropped == Wrap(outputLosses)
    {
      WrapNext(if isOutput then outputLosses else lifecycleLosses);
      if isOutput {
        outputDropped := Wrap(outputDropped + 1);
        outputLosses := outputLosses + 1;
      } else {
        lifecycleDropped := Wrap(lifecycleDropped + 1);
        lifecycleLosses := lifecycleLosses + 1;
      }
      uncounted := uncounted + 1;
    }

    /** The second count of some earlier loss. */
    method CountTotal()
      requires Valid() && uncounted > 0
      modifies this`dropped, this`uncounted
      ensures Valid() && uncounted == old(uncounted) - 1
      ensures dropped == Wrap(old(dropped) + 1)
    {
      WrapNext(lifecycleLosses + outputLosses - uncounted);
      dropped := Wrap(dropped + 1);
      uncounted := uncounted - 1;
    }

    /** A loss reported without an event. */
    method RecordLoss()
      requires Valid()
      modifies this
      ensures Valid() && fifo == old(fifo) && reportedLosses == old(reportedLosses) + 1
      ensures lifecycle == old(lifecycle) && output == old(output)
      ensures lifecycleLosses == old(lifecycleLosses) + 1 && outputLosses == old(outputLosses)
      ensures uncounted == old(uncounted) + 1
    {
      CountLoss(false);
      reportedLosses := reportedLosses + 1;
    }

    /** A sender for this context, or a reported loss when the context is too long. */
    method BindContext(contextBytes: nat) returns (bound: bool)
      requires Valid() && lifecycle.senders > 0
      modifies this
      ensures Valid() && fifo == old(fifo)
      ensures bound <==> contextBytes <= 4096
      ensures reportedLosses == old(reportedLosses) + (if bound then 0 else 1)
      ensures lifecycle.senders == old(lifecycle.senders) + (if bound then 1 else 0)
    {
      bound := contextBytes <= MAX_CONTEXT_BYTES;
      if !bound {
        RecordLoss();
        return;
      }
      lifecycle := lifecycle.(senders := lifecycle.senders + 1);
      output := output.(senders := output.senders + 1);
    }

    /** Dropping a sender releases its two queue handles one after the other. */
    method DropSender(second: bool)
      requires Valid()
      requires if second then output.senders > lifecycle.senders else lifecycle.senders > 0
      modifies this`lifecycle, this`output
      ensures Valid()
      ensures lifecycle.senders == old(lifecycle.senders) - (if second then 0 else 1)
      ensures output.senders == old(output.senders) - (if second then 1 else 0)
    {
      if second {
        output := output.(senders := output.senders - 1);
      } else {
        lifecycle := lifecycle.(senders := lifecycle.senders - 1);
      }
    }

    /** The receiver goes away with everything it has not delivered. */
    method DropReceiver()
      requires Valid()
      modifies this
      ensures Valid() && fifo == old(fifo).(receiving := false, lifecycleHeld := false, outputHeld := false)
    {
      receiving := false;
      lifecycle, output := lifecycle.(head := None, queue := []), output.(head := None, queue := []);
      fifo := fifo.(receiving := false, lifecycleHeld := false, outputHeld := false);
    }

    /** Offer an event: it joins the one queue, or it is counted as a loss of its kind. */
    method Emit(o: Observation)
      requires Valid() && lifecycle.senders > 0
      modifies this
      ensures Valid() && fifo == Emitted(old(fifo), capacity, o)
      ensures lifecycleLosses + outputLosses == old(lifecycleLosses + outputLosses) + fifo.emitLosses - old(fifo.emitLosses)
      ensures outputLosses == old(outputLosses) + (if o.IsOutput() then fifo.emitLosses - old(fifo.emitLosses) else 0)
    {
      var isOutput := o.IsOutput();
      var lane := if isOutput then output else lifecycle;
      ghost var other := if isOutput then lifecycle else output;
      EmittedCarries(lane, other, fifo, capacity, o);
      fifo := Emitted(fifo, capacity, o);
      if sequence == U64_MAX || !receiving || |lane.queue| >= capacity {
        CountLoss(isOutput);
      } else {
        Send(isOutput, Sequenced(sequence, o));
        sequence := sequence + 1;
      }
      assert LaneCarries(lifecycle, fifo, capacity, false);
      assert LaneCarries(output, fifo, capacity, true);
    }

    /** Put an event at the end of one queue. */
    method Send(isOutput: bool, x: Sequenced)
      modifies this`lifecycle, this`output
      ensures lifecycle == if isOutput then old(lifecycle) else old(lifecycle).(queue := old(lifecycle.queue) + [x])
      ensures output == if isOutput then old(output).(queue := old(output.queue) + [x]) else old(output)
    {
      if isOutput {
        output := output.(queue := output.queue + [x]);
      } else {
        lifecycle := lifecycle.(queue := lifecycle.queue + [x]);
      }
    }

    /** Give the head with the smaller number. */
    method TakeHead() returns (taken: Option<Observation>)
      modifies this`lifecycle, this`output
      ensures taken == Smaller(old(lifecycle), old(output)).0
      ensures lifecycle == Smaller(old(lifecycle), old(output)).1 && output == Smaller(old(lifecycle), old(output)).2
    {
      if lifecycle.head.Some? && (output.head.None? || lifecycle.head.value.sequence < output.head.value.sequence) {
        taken := Some(lifecycle.head.value.observation);
        lifecycle := lifecycle.(head := None);
      } else {
        taken := if output.head.Some? then Some(output.head.value.observation) else None;
        output := output.(head := None);
      }
    }

    /** Look at both queues. */
    method FillHeads() returns (lifecycleClosed: bool, outputClosed: bool)
      requires Valid() && receiving
      modifies this`lifecycle, this`output, this`fifo
      ensures Valid() && fifo == Inspected(old(fifo)) && AllHeld(fifo) && SameCounts(old(lifecycle), old(output))
      ensures !fifo.HasWaiting() ==> (lifecycleClosed <==> lifecycle.senders == 0) && (outputClosed <==> output.senders == 0)
    {
      FilledRepresent(lifecycle, output, fifo, capacity);
      var life := FilledHead(lifecycle);
      var out := FilledHead(output);
      lifecycle, lifecycleClosed := life.0, life.1;
      output, outputClosed := out.0, out.1;
      fifo := Inspected(fifo);
    }

    /** After looking at both queues, take the oldest waiting event if there is one. */
    method TakeNext() returns (taken: Option<Observation>)
      requires Valid() && receiving && AllHeld(fifo)
      modifies this`lifecycle, this`output, this`fifo
      ensures Valid() && fifo == Received(old(fifo)) && SameCounts(old(lifecycle), old(output))
      ensures taken == old(fifo).Next()
    {
      SmallerIsNext(lifecycle, output, fifo, capacity);
      taken := TakeHead();
      fifo := Received(fifo);
    }

    /** Look at both queues and take the oldest waiting event, if there is one. */
    method Inspect() returns (taken: Option<Observation>, lifecycleClosed: bool, outputClosed: bool)
      requires Valid() && receiving
      modifies this`lifecycle, this`output, this`fifo
      ensures Valid() && fifo == Received(old(fifo)) && SameCounts(old(lifecycle), old(output))
      ensures taken == old(fifo).Next()
      ensures taken.None? ==> (lifecycleClosed <==> lifecycle.senders == 0) && (outputClosed <==> output.senders == 0)
    {
      lifecycleClosed, outputClosed := FillHeads();
      taken := TakeNext();
    }

    ghost predicate SameCounts(life: Lane, out: Lane)
      reads this
    {
      lifecycle.senders == life.senders && output.senders == out.senders
    }

    /** A receive that does not wait. */
    method TryRecv() returns (r: Reception)
      requires Valid() && receiving
      modifies this
      ensures Valid() && fifo == Received(old(fifo)) && SameCounts(old(lifecycle), old(output))
      ensures r == if old(fifo).Next().Some? then Item(old(fifo).Next().value)
                   else if lifecycle.senders == 0 && output.senders == 0 then Finished else Nothing
    {
      var taken, lifecycleClosed, outputClosed := Inspect();
      if taken.Some? { return Item(taken.value); }
      return if lifecycleClosed && outputClosed then Finished else Nothing;
    }

    /**
     One poll of a receive. When nothing waits both queues are polled again, under
     the same lock: in between only senders can go (`lifeGone`, `outGone`), and a
     poll may also report nothing because its cooperative budget is spent.
     */
    method PollRecv(lifeGone: nat, outGone: nat, lifeSpent: bool, outSpent: bool) returns (r: Reception)
      requires Valid() && receiving
      requires lifeGone <= lifecycle.senders && outGone <= output.senders
      requires lifecycle.senders - lifeGone <= output.senders - outGone
      modifies this
      ensures Valid() && fifo == Received(old(fifo))
      ensures r.Item? <==> old(fifo).Next().Some?
      ensures r.Item? ==> r.observation == old(fifo).Next().value
      ensures r.Finished? ==> lifecycle.senders == 0 && output.senders == 0
      ensures r.Nothing? && lifecycle.senders == 0 && output.senders == 0 ==> lifeSpent || outSpent
    {
      var taken, lifecycleClosed, outputClosed := Inspect();
      if taken.Some? { return Item(taken.value); }
      if lifecycleClosed && outputClosed { return Finished; }
      SendersRepresent(lifecycle, output, fifo, capacity, lifecycle.senders - lifeGone, output.senders - outGone);
      lifecycle := lifecycle.(senders := lifecycle.senders - lifeGone);
      output := output.(senders := output.senders - outGone);
      var closed := 0;
      if !lifeSpent && lifecycle.senders == 0 { closed := closed + 1; }
      if !outSpent && output.senders == 0 { closed := closed + 1; }
      return if closed == 2 then Finished else Nothing;
    }

    /**
     Conservation: every event ever offered was delivered, waits in a queue or a
     head, or was counted as lost; and the received events are the accepted ones
     with numbers 0, 1, 2 and so on.
     */
    lemma Conserved()
      requires Valid() && receiving
      ensures fifo.emits == |fifo.delivered| + |lifecycle.Events()| + |output.Events()| + fifo.emitLosses
      ensures forall i :: 0 <= i < |fifo.delivered| ==> fifo.delivered[i] == fifo.accepted[i]
      ensures forall e :: e in lifecycle.Events() || e in output.Events() ==>
                |fifo.delivered| <= e.sequence < sequence && e.observation == fifo.accepted[e.sequence]
    {
      var f := fifo;
      KindsAddUp(f.accepted, |f.delivered|, |f.accepted|);
      NumberedNames(f.accepted, false, |f.delivered|, |f.accepted|);
      NumberedNames(f.accepted, true, |f.delivered|, |f.accepted|);
    }

    /** Once every loss has been counted twice the total is the sum of the kinds. */
    lemma LossesAddUp()
      requires Valid() && uncounted == 0
      ensures dropped == Wrap(lifecycleDropped + outputDropped)
      ensures dropped == Wrap(fifo.emitLosses + reportedLosses)
    {
      WrapSum(lifecycleLosses, outputLosses);
    }
  }

  lemma {:induction false} NumberedNames(accepted: seq<Observation>, output: bool, first: nat, n: nat)
    requires n <= |accepted|
    ensures forall e :: e in Numbered(accepted, output, first, n) ==>
              first <= e.sequence < n && e.observation == accepted[e.sequence] && e.observation.IsOutput() == output
  {
    if first < n { NumberedNames(accepted, output, first, n - 1); }
  }
}
