/**
 The stream of one bounded model call: control wrapper, recording wrapper and
 aggregation. Every poll of the provider, of the stop boundary and of the
 recorder is an input, so the statements hold for every schedule of them.
 */
module StepStream {
  import opened Wrappers

  datatype StopReason = EndTurn | ToolUse | Refusal | MaxOutputTokens | OtherReason(text: string)

  datatype Response = Response(stop: StopReason, body: string)

  /** What a provider reports between opening and completion. */
  datatype Progress =
    | TextDelta(text: string)
    | ReasoningDelta(text: string)
    | ToolCallStarted(id: string, name: string)
    | ToolCallArgumentsDelta(id: string, delta: string)
    | ToolCallCompleted(id: string, name: string, arguments: string)
    | Usage(tokens: nat)
    | Provider(metadata: string)

  datatype ModelEvent = ModelStarted | ModelProgress(progress: Progress) | ModelCompleted(response: Response)

  datatype StepOutcome = FinalAnswer | ToolCalls | Refused | Incomplete

  datatype StepResult = StepResult(stepId: string, response: Response, outcome: StepOutcome)

  datatype StepEvent =
    | Started(stepId: string)
    | Observed(stepId: string, progress: Progress)
    | Completed(result: StepResult)
    | Cancelled(stepId: string)
    | TimedOut(stepId: string)

  datatype StepError =
    | ProviderFailed
    | AfterCompletion
    | ErrorAfterCompletion
    | NoTerminalEvent
    | MultipleCompleted
    | ValidationFailed
    | RecordingFailed
    | StepCancelled
    | StepTimedOut

  datatype Stop = CancelStop | TimeStop

  datatype ModelPoll = ModelPending | ModelItem(event: ModelEvent) | ModelError | ModelEnd

  /** One poll's environment: what the stop boundary, the provider and the recorder would answer. */
  datatype Input = Input(stop: Option<Stop>, model: ModelPoll, records: bool)

  datatype Polled = Pending | Item(event: StepEvent) | Failed(error: StepError) | End

  /** A step's identity and its validator's verdicts. */
  datatype Step = Step(id: string, validates: StepResult -> bool)

  function OutcomeOf(stop: StopReason): StepOutcome {
    match stop
    case EndTurn => FinalAnswer
    case ToolUse => ToolCalls
    case Refusal => Refused
    case MaxOutputTokens => Incomplete
    case OtherReason(_) => Incomplete
  }

  function ResultOf(step: Step, response: Response): StepResult {
    StepResult(step.id, response, OutcomeOf(response.stop))
  }

  // ---------------------------------------------------------------- the two wrappers

  datatype Control = Control(started: bool, completed: bool, terminal: bool, stopped: Option<Stop>)

  function Closing(s: Control, p: Polled): (Control, Polled) {
    (s.(terminal := true), p)
  }

  function StopAnswer(step: Step, completed: bool, stop: Stop): Polled {
    match stop
    case CancelStop => if completed then Failed(StepCancelled) else Item(Cancelled(step.id))
    case TimeStop => if completed then Failed(StepTimedOut) else Item(TimedOut(step.id))
  }

  function ModelAnswer(step: Step, s: Control, poll: ModelPoll): (Control, Polled) {
    match poll
    case ModelPending => (s, Pending)
    case ModelError => Closing(s, Failed(if s.completed then ErrorAfterCompletion else ProviderFailed))
    case ModelEnd => Closing(s, if s.completed then End else Failed(NoTerminalEvent))
    case ModelItem(event) =>
      if s.completed then Closing(s, Failed(AfterCompletion))
      else
        match event
        case ModelStarted => (s, Pending)
        case ModelProgress(progress) => (s, Item(Observed(step.id, progress)))
        case ModelCompleted(response) =>
          if step.validates(ResultOf(step, response))
          then (s.(completed := true), Item(Completed(ResultOf(step, response))))
          else Closing(s, Failed(ValidationFailed))
  }

  /** One poll of the control wrapper. */
  function Controlled(step: Step, s: Control, input: Input): (Control, Polled) {
    if s.terminal then (s, End)
    else if !s.started then (s.(started := true), Item(Started(step.id)))
    else
      var stop := if s.stopped.Some? then s.stopped else input.stop;
      if stop.Some? then Closing(s, StopAnswer(step, s.completed, stop.value)) else ModelAnswer(step, s, input.model)
  }

  /** A recording wrapper, if there is one, around the control wrapper. */
  datatype Stream = Stream(control: Control, recording: bool, closed: bool)

  function Polling(step: Step, s: Stream, input: Input): (Stream, Polled) {
    if !s.recording then
      var inner := Controlled(step, s.control, input);
      (s.(control := inner.0), inner.1)
    else if s.closed then (s, End)
    else
      var inner := Controlled(step, s.control, input);
      if inner.1.Pending? then (s.(control := inner.0), Pending)
      else if inner.1.Item? then
        if input.records then (s.(control := inner.0), inner.1)
        else (s.(control := inner.0, closed := true), Failed(RecordingFailed))
      else (s.(control := inner.0, closed := true), inner.1)
  }

  function Opened(stopped: Option<Stop>, recording: bool): Stream {
    Stream(Control(false, false, false, stopped), recording, false)
  }

  function StateAfter(step: Step, s: Stream, inputs: seq<Input>, n: nat): Stream
    requires n <= |inputs|
  {
    if n == 0 then s else Polling(step, StateAfter(step, s, inputs, n - 1), inputs[n - 1]).0
  }

  /** The answer of the `n`-th poll. */
  function Answer(step: Step, s: Stream, inputs: seq<Input>, n: nat): Polled
    requires n < |inputs|
  {
    Polling(step, StateAfter(step, s, inputs, n), inputs[n]).1
  }

  // --------------------------------------------------------------------- the grammar

  /** How far a step's stream has come: nothing yet, running, completed, or over. */
  datatype Phase = Fresh | Running | Complete | Over

  predicate IsTerminal(p: Polled) {
    p.End? || p.Failed? || (p.Item? && (p.event.Cancelled? || p.event.TimedOut?))
  }

  /** The phase after an answer, if the grammar allows it. */
  function Phased(phase: Phase, p: Polled): Option<Phase> {
    match phase
    case Fresh =>
      if p.Item? && p.event.Started? then Some(Running)
      else if p.Failed? then Some(Over)
      else None
    case Running =>
      if p.Pending? || (p.Item? && p.event.Observed?) then Some(Running)
      else if p.Item? && p.event.Completed? then Some(Complete)
      else if p.Failed? || (p.Item? && (p.event.Cancelled? || p.event.TimedOut?)) then Some(Over)
      else None
    case Complete =>
      if p.Pending? then Some(Complete) else if p.Failed? || p.End? then Some(Over) else None
    case Over => if p.End? then Some(Over) else None
  }

  function PhaseOf(s: Stream): Phase {
    if s.control.terminal || (s.recording && s.closed) then Over
    else if !s.control.started then Fresh
    else if s.control.completed then Complete
    else Running
  }

  predicate IsOpened(s: Stream) {
    s == Opened(s.control.stopped, s.recording)
  }

  lemma {:induction false} CompletedHasStarted(step: Step, s: Stream, inputs: seq<Input>, n: nat)
    requires n <= |inputs| && IsOpened(s)
    ensures StateAfter(step, s, inputs, n).control.completed ==> StateAfter(step, s, inputs, n).control.started
    ensures StateAfter(step, s, inputs, n).recording == s.recording
  {
    if n > 0 { CompletedHasStarted(step, s, inputs, n - 1); }
  }

  /** Every answer is allowed by the grammar, and leads to the phase the grammar says. */
  lemma AnswerFollowsGrammar(step: Step, s: Stream, inputs: seq<Input>, n: nat)
    requires n < |inputs| && IsOpened(s)
    ensures Phased(PhaseOf(StateAfter(step, s, inputs, n)), Answer(step, s, inputs, n))
            == Some(PhaseOf(StateAfter(step, s, inputs, n + 1)))
  {
    CompletedHasStarted(step, s, inputs, n);
  }

  /** After an answer that ends the stream every later one is the end. */
  lemma {:induction false} OverIsForever(step: Step, s: Stream, inputs: seq<Input>, i: nat, j: nat)
    requires i < j < |inputs| && IsOpened(s) && IsTerminal(Answer(step, s, inputs, i))
    ensures Answer(step, s, inputs, j).End?
    ensures PhaseOf(StateAfter(step, s, inputs, j)) == Over
  {
    AnswerFollowsGrammar(step, s, inputs, j - 1);
    AnswerFollowsGrammar(step, s, inputs, j);
    if i < j - 1 { OverIsForever(step, s, inputs, i, j - 1); }
  }

  lemma {:induction false} NeverFreshAgain(step: Step, s: Stream, inputs: seq<Input>, n: nat)
    requires 0 < n <= |inputs| && IsOpened(s)
    ensures PhaseOf(StateAfter(step, s, inputs, n)) != Fresh
  {
    AnswerFollowsGrammar(step, s, inputs, n - 1);
    if n > 1 { NeverFreshAgain(step, s, inputs, n - 1); }
  }

  /** Started comes first, unless recording it fails, and never again. */
  lemma StartedIsFirst(step: Step, s: Stream, inputs: seq<Input>, n: nat)
    requires n < |inputs| && IsOpened(s)
    ensures Answer(step, s, inputs, 0)
            == if s.recording && !inputs[0].records then Failed(RecordingFailed) else Item(Started(step.id))
    ensures Answer(step, s, inputs, n).Item? && Answer(step, s, inputs, n).event.Started? ==> n == 0
  {
    AnswerFollowsGrammar(step, s, inputs, n);
    if n > 0 { NeverFreshAgain(step, s, inputs, n); }
  }

  /** After completion come only pending polls and then the end or one error. */
  lemma {:induction false} CompletedIsLast(step: Step, s: Stream, inputs: seq<Input>, i: nat, j: nat)
    requires i < j < |inputs| && IsOpened(s)
    requires Answer(step, s, inputs, i).Item? && Answer(step, s, inputs, i).event.Completed?
    ensures !Answer(step, s, inputs, j).Item?
    ensures PhaseOf(StateAfter(step, s, inputs, j)) == Complete || PhaseOf(StateAfter(step, s, inputs, j)) == Over
  {
    AnswerFollowsGrammar(step, s, inputs, j - 1);
    AnswerFollowsGrammar(step, s, inputs, j);
    if i < j - 1 { CompletedIsLast(step, s, inputs, i, j - 1); }
  }

  /** An answer after which a stream may end. */
  predicate MayEnd(p: Polled) {
    p.Failed? || (p.Item? && (p.event.Completed? || p.event.Cancelled? || p.event.TimedOut?))
  }

  /** Some earlier answer accounts for the phase. */
  lemma {:induction false} PhaseHasCause(step: Step, s: Stream, inputs: seq<Input>, n: nat) returns (i: nat)
    requires n <= |inputs| && IsOpened(s)
    requires PhaseOf(StateAfter(step, s, inputs, n)) == Complete || PhaseOf(StateAfter(step, s, inputs, n)) == Over
    ensures i < n && MayEnd(Answer(step, s, inputs, i))
  {
    AnswerFollowsGrammar(step, s, inputs, n - 1);
    if MayEnd(Answer(step, s, inputs, n - 1)) {
      i := n - 1;
    } else {
      i := PhaseHasCause(step, s, inputs, n - 1);
    }
  }

  /** The first end of a stream follows a completion, an error, a cancellation or a timeout. */
  lemma EndHasCause(step: Step, s: Stream, inputs: seq<Input>, n: nat) returns (i: nat)
    requires n < |inputs| && IsOpened(s) && Answer(step, s, inputs, n).End?
    ensures i < n && MayEnd(Answer(step, s, inputs, i))
  {
    AnswerFollowsGrammar(step, s, inputs, n);
    i := PhaseHasCause(step, s, inputs, n);
  }

  /** Nothing is handed out by a recording stream that its recorder did not accept. */
  lemma HandedOutIsRecorded(step: Step, s: Stream, inputs: seq<Input>, n: nat)
    requires n < |inputs| && StateAfter(step, s, inputs, n).recording && Answer(step, s, inputs, n).Item?
    ensures inputs[n].records
  {
  }

  /** Every progress handed out is what the provider gave at that poll, and a completion is its validated response. */
  lemma HandedOutIsProviders(step: Step, s: Stream, inputs: seq<Input>, n: nat)
    requires n < |inputs| && IsOpened(s) && Answer(step, s, inputs, n).Item?
    ensures var event, model := Answer(step, s, inputs, n).event, inputs[n].model;
            && (event.Observed? ==> model == ModelItem(ModelProgress(event.progress)) && event.stepId == step.id)
            && (event.Completed? ==> model.ModelItem? && model.event.ModelCompleted?
                                     && event.result == ResultOf(step, model.event.response) && step.validates(event.result))
            && (event.Cancelled? || event.TimedOut? ==> s.control.stopped.Some? || inputs[n].stop.Some?)
  {
    StopIsKept(step, s, inputs, n);
  }

  lemma {:induction false} StopIsKept(step: Step, s: Stream, inputs: seq<Input>, n: nat)
    requires n <= |inputs|
    ensures StateAfter(step, s, inputs, n).control.stopped == s.control.stopped
  {
    if n > 0 { StopIsKept(step, s, inputs, n - 1); }
  }

  // --------------------------------------------------------------- nothing is dropped

  /** What the provider reports in the polls after the first and before the `n`-th. */
  function Given(inputs: seq<Input>, n: nat): seq<Progress>
    requires n <= |inputs|
  {
    if n <= 1 then []
    else Given(inputs, n - 1) + match inputs[n - 1].model case ModelItem(ModelProgress(progress)) => [progress] case _ => []
  }

  /** What the first `n` polls hand out of it. */
  function HandedOut(step: Step, s: Stream, inputs: seq<Input>, n: nat): seq<Progress>
    requires n <= |inputs|
  {
    if n == 0 then []
    else HandedOut(step, s, inputs, n - 1)
         + match Answer(step, s, inputs, n - 1) case Item(Observed(_, progress)) => [progress] case _ => []
  }

  /** One poll more hands out what the provider reports in it. */
  lemma PollDropsNothing(step: Step, s: Stream, input: Input)
    requires PhaseOf(s) != Fresh && (s.control.completed ==> s.control.started) && PhaseOf(Polling(step, s, input).0) != Over
    ensures (match Polling(step, s, input).1 case Item(Observed(_, progress)) => [progress] case _ => [])
            == match input.model case ModelItem(ModelProgress(progress)) => [progress] case _ => []
  {
  }

  /** While a step runs, and when it completes, everything the provider reported has been handed out, in order. */
  lemma {:induction false} NothingIsDropped(step: Step, s: Stream, inputs: seq<Input>, n: nat)
    requires n <= |inputs| && IsOpened(s)
    requires PhaseOf(StateAfter(step, s, inputs, n)) != Over
    ensures HandedOut(step, s, inputs, n) == Given(inputs, n)
  {
    if n == 1 {
      StartedIsFirst(step, s, inputs, 0);
      assert HandedOut(step, s, inputs, 0) == [];
    } else if n > 1 {
      AnswerFollowsGrammar(step, s, inputs, n - 1);
      NothingIsDropped(step, s, inputs, n - 1);
      CompletedHasStarted(step, s, inputs, n - 1);
      NeverFreshAgain(step, s, inputs, n - 1);
      PollDropsNothing(step, StateAfter(step, s, inputs, n - 1), inputs[n - 1]);
    }
  }

  /** What a completed step's response amounts to, by why the model stopped. */
  predicate IsOutcome(stop: StopReason, outcome: StepOutcome) {
    match outcome
    case FinalAnswer => stop == EndTurn
    case ToolCalls => stop == ToolUse
    case Refused => stop == Refusal
    case Incomplete => stop == MaxOutputTokens || stop.OtherReason?
  }

  /** What a poll hands out of a running step that is not stopped. */
  ghost predicate IsRunningAnswer(step: Step, model: ModelPoll, p: Polled) {
    match model
    case ModelPending => p == Pending
    case ModelItem(ModelStarted) => p == Pending
    case ModelItem(ModelProgress(progress)) => p == Item(Observed(step.id, progress))
    case ModelItem(ModelCompleted(response)) =>
      exists outcome :: IsOutcome(response.stop, outcome)
        && var result := StepResult(step.id, response, outcome);
           p == if step.validates(result) then Item(Completed(result)) else Failed(ValidationFailed)
    case ModelError => p == Failed(ProviderFailed)
    case ModelEnd => p == Failed(NoTerminalEvent)
  }

  /** What a poll gives after completion when the step is not stopped: nothing, the end, or one error. */
  ghost predicate IsLateAnswer(model: ModelPoll, p: Polled) {
    match model
    case ModelPending => p == Pending
    case ModelItem(_) => p == Failed(AfterCompletion)
    case ModelError => p == Failed(ErrorAfterCompletion)
    case ModelEnd => p == End
  }

  /** What a stop gives: an item while the step runs, and an error after completion. */
  ghost predicate IsStopAnswer(step: Step, stop: Stop, phase: Phase, p: Polled) {
    match stop
    case CancelStop => p == if phase == Running then Item(Cancelled(step.id)) else Failed(StepCancelled)
    case TimeStop => p == if phase == Running then Item(TimedOut(step.id)) else Failed(StepTimedOut)
  }

  /** An item that the recorder does not accept is replaced by an error. */
  predicate IsRecorded(recording: bool, records: bool, given: Polled, p: Polled) {
    p == if recording && !records && given.Item? then Failed(RecordingFailed) else given
  }

  /** Every answer after the first, by stop boundary, provider and recorder. */
  lemma AnswerIsExact(step: Step, s: Stream, inputs: seq<Input>, n: nat) returns (given: Polled)
    requires 0 < n < |inputs| && IsOpened(s)
    requires PhaseOf(StateAfter(step, s, inputs, n)) != Over
    ensures var phase, stop := PhaseOf(StateAfter(step, s, inputs, n)), if s.control.stopped.Some? then s.control.stopped else inputs[n].stop;
            && (phase == Running || phase == Complete)
            && (if stop.Some? then IsStopAnswer(step, stop.value, phase, given)
                else if phase == Running then IsRunningAnswer(step, inputs[n].model, given)
                else IsLateAnswer(inputs[n].model, given))
            && IsRecorded(s.recording, inputs[n].records, given, Answer(step, s, inputs, n))
  {
    NeverFreshAgain(step, s, inputs, n);
    CompletedHasStarted(step, s, inputs, n);
    StopIsKept(step, s, inputs, n);
    given := Controlled(step, StateAfter(step, s, inputs, n).control, inputs[n]).1;
    if inputs[n].model.ModelItem? && inputs[n].model.event.ModelCompleted? {
      assert IsOutcome(inputs[n].model.event.response.stop, OutcomeOf(inputs[n].model.event.response.stop));
    }
  }

  // ----------------------------------------------------------------------- the classes

  class ControlledStepStream {
    const step: Step
    /** The provider's stream and the stop boundary are held until the step is over. */
    var inner: bool
    var boundary: bool
    var stopped: Option<Stop>
    var started: bool
    var completed: bool
    var terminal: bool

    ghost predicate Valid()
      reads this
    {
      (!terminal ==> boundary) && (!terminal && stopped.None? ==> inner)
    }

    ghost function View(): Control
      reads this
    {
      Control(started, completed, terminal, stopped)
    }

    /** A step stopped while opening has no provider stream. */
    constructor (step: Step, stopped: Option<Stop>)
      ensures Valid() && this.step == step && View() == Control(false, false, false, stopped)
    {
      this.step, this.stopped := step, stopped;
      inner, boundary := stopped.None?, true;
      started, completed, terminal := false, false, false;
    }

    method Release()
      modifies this`inner, this`boundary, this`terminal
      ensures terminal && !inner && !boundary
    {
      terminal, inner, boundary := true, false, false;
    }

    /** One poll. The boundary and the provider stream are there whenever they are polled. */
    method PollNext(input: Input) returns (p: Polled)
      requires Valid()
      modifies this
      ensures Valid() && (View(), p) == Controlled(step, old(View()), input)
    {
      if terminal {
        return End;
      }
      if !started {
        started := true;
        return Item(Started(step.id));
      }
      var stop := stopped;
      if stop.None? {
        assert boundary;
        stop := input.stop;
      }
      if stop.Some? {
        Release();
        return StopAnswer(step, completed, stop.value);
      }
      assert inner;
      match input.model
      case ModelPending => return Pending;
      case ModelError =>
        Release();
        return Failed(if completed then ErrorAfterCompletion else ProviderFailed);
      case ModelEnd =>
        Release();
        return if completed then End else Failed(NoTerminalEvent);
      case ModelItem(event) =>
        p := TakeEvent(event);
    }

    method TakeEvent(event: ModelEvent) returns (p: Polled)
      requires Valid() && !terminal && started
      modifies this
      ensures Valid() && (View(), p) == ModelAnswer(step, old(View()), ModelItem(event))
    {
      if completed {
        Release();
        return Failed(AfterCompletion);
      }
      match event
      case ModelStarted => return Pending;
      case ModelProgress(progress) => return Item(Observed(step.id, progress));
      case ModelCompleted(response) =>
        var result := ResultOf(step, response);
        if !step.validates(result) {
          Release();
          return Failed(ValidationFailed);
        }
        completed := true;
        return Item(Completed(result));
    }
  }

  class RecordingStepStream {
    const source: ControlledStepStream
    /** The wrapped stream is held until this one is over. */
    var inner: bool
    var terminal: bool

    ghost predicate Valid()
      reads this, source
    {
      source.Valid() && (!terminal ==> inner)
    }

    ghost function View(): Stream
      reads this, source
    {
      Stream(source.View(), true, terminal)
    }

    constructor (source: ControlledStepStream)
      requires source.Valid()
      ensures Valid() && this.source == source && View() == Stream(source.View(), true, false)
    {
      this.source := source;
      inner, terminal := true, false;
    }

    method PollNext(input: Input) returns (p: Polled)
      requires Valid()
      modifies this, source
      ensures Valid() && (View(), p) == Polling(source.step, old(View()), input)
    {
      if terminal {
        return End;
      }
      assert inner;
      p := source.PollNext(input);
      if p.Pending? || (p.Item? && input.records) {
        return;
      }
      terminal, inner := true, false;
      if p.Item? {
        p := Failed(RecordingFailed);
      }
    }
  }

  // --------------------------------------------------------------------- aggregation

  type Items = seq<Result<StepEvent, StepError>>

  /** Items that neither complete nor end a step. */
  predicate IsQuiet(item: Result<StepEvent, StepError>) {
    item.Ok? && (item.value.Started? || item.value.Observed?)
  }

  predicate Completes(item: Result<StepEvent, StepError>) {
    item.Ok? && item.value.Completed?
  }

  /** Item `i` is the first that is not quiet. */
  predicate FirstLoud(items: Items, i: int) {
    0 <= i < |items| && !IsQuiet(items[i]) && forall k :: 0 <= k < i ==> IsQuiet(items[k])
  }

  /** The stream's last item completes with this result, and the others are quiet. */
  predicate CompletesWith(items: Items, result: StepResult) {
    FirstLoud(items, |items| - 1) && items[|items| - 1] == Ok(Completed(result))
  }

  /** What an item other than a completion makes of a running step. */
  function ErrorOf(item: Result<StepEvent, StepError>): StepError
    requires !IsQuiet(item) && !Completes(item)
  {
    if item.Err? then item.error else if item.value.Cancelled? then StepCancelled else StepTimedOut
  }

  /** What any item makes of a completed step. */
  function ErrorAfter(item: Result<StepEvent, StepError>): StepError {
    if IsQuiet(item) then AfterCompletion else if Completes(item) then MultipleCompleted else ErrorOf(item)
  }

  /** A stream's own error is passed on; each other item has one error of its own. */
  lemma ErrorExactlyWhen(item: Result<StepEvent, StepError>)
    ensures match item
            case Err(error) => ErrorOf(item) == ErrorAfter(item) == error
            case Ok(Cancelled(_)) => ErrorOf(item) == ErrorAfter(item) == StepCancelled
            case Ok(TimedOut(_)) => ErrorOf(item) == ErrorAfter(item) == StepTimedOut
            case Ok(Completed(_)) => ErrorAfter(item) == MultipleCompleted
            case Ok(Started(_)) => ErrorAfter(item) == AfterCompletion
            case Ok(Observed(_, _)) => ErrorAfter(item) == AfterCompletion
  {
  }

  /**
   The result of a stream that ends, whatever stream it is: there is one exactly
   when its only loud item is a completion at its very end; otherwise the first
   loud item decides, or after a completion the item that follows it.
   */
  method AggregateStepStream(items: Items) returns (r: Result<StepResult, StepError>)
    ensures forall result :: r == Ok(result) <==> CompletesWith(items, result)
    ensures (forall k :: 0 <= k < |items| ==> IsQuiet(items[k])) ==> r == Err(NoTerminalEvent)
    ensures forall i :: FirstLoud(items, i) && !Completes(items[i]) ==> r == Err(ErrorOf(items[i]))
    ensures forall i :: FirstLoud(items, i) && Completes(items[i]) && i + 1 < |items| ==> r == Err(ErrorAfter(items[i + 1]))
  {
    var completed: Option<StepResult> := None;
    var i := 0;
    while i < |items|
      invariant 0 <= i <= |items|
      invariant completed.None? ==> forall k :: 0 <= k < i ==> IsQuiet(items[k])
      invariant completed.Some? ==> i > 0 && FirstLoud(items, i - 1) && items[i - 1] == Ok(Completed(completed.value))
    {
      if items[i].Err? {
        return Err(items[i].error);
      }
      var event := items[i].value;
      if event.Completed? && completed.None? {
        completed := Some(event.result);
      } else if event.Cancelled? {
        return Err(StepCancelled);
      } else if event.TimedOut? {
        return Err(StepTimedOut);
      } else if event.Completed? {
        return Err(MultipleCompleted);
      } else if completed.Some? {
        return Err(AfterCompletion);
      }
      i := i + 1;
    }
    return if completed.Some? then Ok(completed.value) else Err(NoTerminalEvent);
  }
}
