/**
 Accumulation of indexed content blocks from one provider's message stream, and
 the message they complete to.
 */
module Blocks {
  import opened Wrappers

  const U64_MAX: nat := 0xffff_ffff_ffff_ffff

  datatype BlockKind = TextKind | ThinkingKind | RedactedKind | ToolKind | UnknownKind

  /** A JSON value: whether it is an object, and its text. */
  datatype Json = Json(isObject: bool, text: string)

  /** A content block as received: the fields that are read or edited, and all others. */
  datatype RawBlock = RawBlock(
    kind: BlockKind,
    text: string,
    thinking: string,
    signature: Option<string>,
    id: string,
    name: string,
    input: Json,
    others: string)

  datatype Delta =
    | TextDelta(text: string)
    | ThinkingDelta(text: string)
    | SignatureDelta(signature: Option<string>)
    | InputJsonDelta(partial: string)
    | UnknownDelta

  datatype Content =
    | TextContent(text: string)
    | Reasoning(text: string, opaque_: RawBlock)
    | ToolCall(id: string, name: string, arguments: Json)

  datatype Usage = Usage(input: Option<nat>, output: Option<nat>, cacheRead: Option<nat>, cacheWrite: Option<nat>)

  /** What happens to the block at one index. */
  datatype SlotEvent = Start(block: Option<RawBlock>) | Edit(delta: Option<Delta>) | Stop

  datatype WireEvent =
    | MessageStart(message: Option<(string, Usage)>)
    | BlockEvent(index: Option<nat>, slot: SlotEvent)
    | MessageDelta(stopReason: Option<string>, usage: Option<Usage>)
    | MessageStop
    | ErrorEvent(error: string)
    | OtherEvent(fields: string)

  datatype ModelEvent =
    | Opening
    | TextPart(text: string)
    | ReasoningPart(text: string)
    | ToolStarted(id: string, name: string)
    | ToolArgumentsPart(id: string, partial: string)
    | ToolCompleted(call: Content)
    | UsageSoFar(usage: Usage)
    | Metadata
    | Completed(content: seq<Content>, structured: Option<Json>, stopReason: string, usage: Usage, id: string)

  /** JSON parsing of tool arguments and of structured output. */
  datatype Library = Library(parse: string -> Option<Json>, structured: bool)

  // ------------------------------------------------------------------- one index

  /** A block being received, and its partial tool arguments. */
  datatype Open = Open(block: RawBlock, arguments: string)

  /** What an accepted event leaves open at its index, reports, and completes. */
  datatype SlotAnswer = SlotAnswer(open: Option<Open>, report: Option<ModelEvent>, done: Option<Content>)

  function Started(open: Option<Open>, block: Option<RawBlock>): Option<SlotAnswer> {
    if block.None? || open.Some? then None
    else
      var b := block.value;
      if !b.kind.ToolKind? then Some(SlotAnswer(Some(Open(b, "")), None, None))
      else if b.id == "" || b.name == "" then None
      else Some(SlotAnswer(Some(Open(b, "")), Some(ToolStarted(b.id, b.name)), None))
  }

  function Edited(open: Open, delta: Delta): Option<SlotAnswer> {
    var b := open.block;
    match delta
    case TextDelta(text) =>
      if !b.kind.TextKind? then None
      else Some(SlotAnswer(Some(open.(block := b.(text := b.text + text))), Some(TextPart(text)), None))
    case ThinkingDelta(text) =>
      if !b.kind.ThinkingKind? then None
      else Some(SlotAnswer(Some(open.(block := b.(thinking := b.thinking + text))), Some(ReasoningPart(text)), None))
    case SignatureDelta(signature) =>
      if !b.kind.ThinkingKind? then None
      else Some(SlotAnswer(Some(open.(block := b.(signature := signature))), None, None))
    case InputJsonDelta(partial) =>
      if !b.kind.ToolKind? then None
      else Some(SlotAnswer(Some(open.(arguments := open.arguments + partial)), Some(ToolArgumentsPart(b.id, partial)), None))
    case UnknownDelta => Some(SlotAnswer(Some(open), None, None))
  }

  /** The arguments of a finished tool call: the initial input, or the parse of all partial text. */
  function ArgumentsOf(lib: Library, open: Open): Option<Json> {
    if open.arguments == "" then Some(open.block.input) else lib.parse(open.arguments)
  }

  function Stopped(lib: Library, open: Open): Option<SlotAnswer> {
    var b := open.block;
    match b.kind
    case TextKind => Some(SlotAnswer(None, None, Some(TextContent(b.text))))
    case ThinkingKind => Some(SlotAnswer(None, None, Some(Reasoning(b.thinking, b))))
    case RedactedKind => Some(SlotAnswer(None, None, Some(Reasoning(b.thinking, b))))
    case ToolKind =>
      var arguments := ArgumentsOf(lib, open);
      if arguments.None? || !arguments.value.isObject then None
      else
        var call := ToolCall(b.id, b.name, arguments.value);
        Some(SlotAnswer(None, Some(ToolCompleted(call)), Some(call)))
    case UnknownKind => Some(SlotAnswer(None, None, None))
  }

  /** One event at one index; refused events have no answer. */
  function Slotted(lib: Library, open: Option<Open>, e: SlotEvent): Option<SlotAnswer> {
    match e
    case Start(block) => Started(open, block)
    case Edit(delta) => if open.None? || delta.None? then None else Edited(open.value, delta.value)
    case Stop => if open.None? then None else Stopped(lib, open.value)
  }

  /** An index: the block open there and the block completed there. */
  datatype Slot = Slot(open: Option<Open>, done: Option<Content>)

  const EMPTY := Slot(None, None)

  /** One event at one index of a message, where a second completed block is refused too. */
  function SlotAfter(lib: Library, slot: Slot, e: SlotEvent): Option<Slot> {
    var answer := Slotted(lib, slot.open, e);
    if answer.None? || (answer.value.done.Some? && slot.done.Some?) then None
    else Some(Slot(answer.value.open, if answer.value.done.Some? then answer.value.done else slot.done))
  }

  /** An index after the first `n` events there, if all are accepted. */
  function SlotRun(lib: Library, events: seq<SlotEvent>, n: nat): Option<Slot>
    requires n <= |events|
  {
    if n == 0 then Some(EMPTY)
    else
      var earlier := SlotRun(lib, events, n - 1);
      if earlier.None? then None else SlotAfter(lib, earlier.value, events[n - 1])
  }

  // ---------------------------------------------------- what a completed block holds

  /** The first `n` deltas' texts, one after the other; likewise for thinking and arguments. */
  function TextUpTo(deltas: seq<Delta>, n: nat): string
    requires n <= |deltas|
  {
    if n == 0 then ""
    else TextUpTo(deltas, n - 1) + if deltas[n - 1].TextDelta? then deltas[n - 1].text else ""
  }

  function ThinkingUpTo(deltas: seq<Delta>, n: nat): string
    requires n <= |deltas|
  {
    if n == 0 then ""
    else ThinkingUpTo(deltas, n - 1) + if deltas[n - 1].ThinkingDelta? then deltas[n - 1].text else ""
  }

  function PartialUpTo(deltas: seq<Delta>, n: nat): string
    requires n <= |deltas|
  {
    if n == 0 then ""
    else PartialUpTo(deltas, n - 1) + if deltas[n - 1].InputJsonDelta? then deltas[n - 1].partial else ""
  }

  /** The last signature among the first `n` deltas, or the initial one. */
  function SignatureUpTo(initial: Option<string>, deltas: seq<Delta>, n: nat): Option<string>
    requires n <= |deltas|
  {
    if n == 0 then initial
    else if deltas[n - 1].SignatureDelta? then deltas[n - 1].signature
    else SignatureUpTo(initial, deltas, n - 1)
  }

  function Assembled(b: RawBlock, deltas: seq<Delta>, n: nat): Open
    requires n <= |deltas|
  {
    Open(b.(text := b.text + TextUpTo(deltas, n),
            thinking := b.thinking + ThinkingUpTo(deltas, n),
            signature := SignatureUpTo(b.signature, deltas, n)),
         PartialUpTo(deltas, n))
  }

  /** A block's start, its deltas and its stop. */
  function BlockLife(b: RawBlock, deltas: seq<Delta>): seq<SlotEvent> {
    [Start(Some(b))] + seq(|deltas|, i requires 0 <= i < |deltas| => Edit(Some(deltas[i]))) + [Stop]
  }

  lemma AssembledGrows(b: RawBlock, deltas: seq<Delta>, n: nat)
    requires 0 < n <= |deltas|
    ensures var answer := Edited(Assembled(b, deltas, n - 1), deltas[n - 1]);
            answer.Some? ==> answer.value.open == Some(Assembled(b, deltas, n)) && answer.value.done.None?
  {
    assert forall s: string, t: string :: s + t + "" == s + t;
    assert b.text + TextUpTo(deltas, n - 1) + (if deltas[n - 1].TextDelta? then deltas[n - 1].text else "") == b.text + TextUpTo(deltas, n);
    assert b.thinking + ThinkingUpTo(deltas, n - 1) + (if deltas[n - 1].ThinkingDelta? then deltas[n - 1].text else "")
        == b.thinking + ThinkingUpTo(deltas, n);
  }

  lemma {:induction false} AssembledSlot(lib: Library, b: RawBlock, deltas: seq<Delta>, n: nat)
    requires n <= |deltas| && SlotRun(lib, BlockLife(b, deltas), n + 1).Some?
    ensures SlotRun(lib, BlockLife(b, deltas), n + 1) == Some(Slot(Some(Assembled(b, deltas, n)), None))
  {
    var events := BlockLife(b, deltas);
    if n == 0 {
      assert events[0] == Start(Some(b));
      assert SlotRun(lib, events, 0) == Some(EMPTY);
      assert b.text + "" == b.text && b.thinking + "" == b.thinking;
    } else {
      AssembledSlot(lib, b, deltas, n - 1);
      assert events[n] == Edit(Some(deltas[n - 1]));
      AssembledGrows(b, deltas, n);
    }
  }

  /** What a block of this start and these deltas completes to. */
  ghost predicate IsHeld(lib: Library, b: RawBlock, deltas: seq<Delta>, done: Option<Content>) {
    var n := |deltas|;
    match b.kind
    case TextKind => done == Some(TextContent(b.text + TextUpTo(deltas, n)))
    case ThinkingKind => IsReasoning(b, deltas, done)
    case RedactedKind => IsReasoning(b, deltas, done)
    case ToolKind =>
      && done.Some? && done.value.ToolCall? && done.value.arguments.isObject
      && done.value.id == b.id != "" && done.value.name == b.name != ""
      && Some(done.value.arguments) == if PartialUpTo(deltas, n) == "" then Some(b.input) else lib.parse(PartialUpTo(deltas, n))
    case UnknownKind => done.None?
  }

  ghost predicate IsReasoning(b: RawBlock, deltas: seq<Delta>, done: Option<Content>) {
    && done.Some? && done.value.Reasoning?
    && done.value.text == done.value.opaque_.thinking == b.thinking + ThinkingUpTo(deltas, |deltas|)
    && done.value.opaque_.signature == SignatureUpTo(b.signature, deltas, |deltas|)
    && done.value.opaque_.others == b.others
  }

  lemma StoppedHolds(lib: Library, b: RawBlock, deltas: seq<Delta>)
    requires b.kind == ToolKind ==> b.id != "" && b.name != ""
    requires Stopped(lib, Assembled(b, deltas, |deltas|)).Some?
    ensures Stopped(lib, Assembled(b, deltas, |deltas|)).value.open.None?
    ensures IsHeld(lib, b, deltas, Stopped(lib, Assembled(b, deltas, |deltas|)).value.done)
  {
  }

  /** A tool block that starts is named. */
  lemma LifeIsNamed(lib: Library, b: RawBlock, deltas: seq<Delta>)
    requires SlotRun(lib, BlockLife(b, deltas), 1).Some?
    ensures b.kind == ToolKind ==> b.id != "" && b.name != ""
  {
    assert BlockLife(b, deltas)[0] == Start(Some(b));
    assert SlotRun(lib, BlockLife(b, deltas), 0) == Some(EMPTY);
  }

  /**
   A completed block holds its initial text followed by its deltas' texts in order;
   a tool call's arguments are the parse of its concatenated partial text, or the
   initial input if there is none, and are an object.
   */
  lemma CompletedHolds(lib: Library, b: RawBlock, deltas: seq<Delta>)
    requires SlotRun(lib, BlockLife(b, deltas), |deltas| + 2).Some?
    ensures var slot := SlotRun(lib, BlockLife(b, deltas), |deltas| + 2).value;
            slot.open.None? && IsHeld(lib, b, deltas, slot.done)
  {
    LifeStops(lib, b, deltas);
    SomeEarlier(lib, BlockLife(b, deltas), 1, |deltas| + 2);
    LifeIsNamed(lib, b, deltas);
    StoppedHolds(lib, b, deltas);
  }

  /** The stop of a block is the stop of what its deltas assembled. */
  lemma LifeStops(lib: Library, b: RawBlock, deltas: seq<Delta>)
    requires SlotRun(lib, BlockLife(b, deltas), |deltas| + 2).Some?
    ensures SlotRun(lib, BlockLife(b, deltas), |deltas| + 2)
            == SlotAfter(lib, Slot(Some(Assembled(b, deltas, |deltas|)), None), Stop)
  {
    var events := BlockLife(b, deltas);
    SomeEarlier(lib, events, |deltas| + 1, |deltas| + 2);
    AssembledSlot(lib, b, deltas, |deltas|);
    assert events[|deltas| + 1] == Stop;
  }

  lemma {:induction false} SomeEarlier(lib: Library, events: seq<SlotEvent>, m: nat, n: nat)
    requires m <= n <= |events| && SlotRun(lib, events, n).Some?
    ensures SlotRun(lib, events, m).Some?
  {
    if m < n { SomeEarlier(lib, events, m, n - 1); }
  }

  // ------------------------------------------------------------------ the message

  datatype Message = Message(
    id: string,
    usage: Usage,
    open: map<nat, Open>,
    blocks: map<nat, Content>,
    stopReason: Option<string>)

  const NEW := Message("", Usage(None, None, None, None), map[], map[], None)

  function Lookup<T>(m: map<nat, T>, i: nat): Option<T> {
    if i in m then Some(m[i]) else None
  }

  function Updated<T>(m: map<nat, T>, i: nat, value: Option<T>): map<nat, T> {
    if value.Some? then m[i := value.value] else m - {i}
  }

  function SlotAt(s: Message, i: nat): Slot {
    Slot(Lookup(s.open, i), Lookup(s.blocks, i))
  }

  /** An index that is absent or out of range reads as zero. */
  function IndexOf(index: Option<nat>): nat {
    if index.Some? && index.value <= U64_MAX then index.value else 0
  }

  lemma IndexExactlyWhen(index: Option<nat>, i: nat)
    ensures IndexOf(index) == i <==> (index == Some(i) && i < 0x1_0000_0000_0000_0000)
                                     || (i == 0 && (index.None? || index.value >= 0x1_0000_0000_0000_0000))
  {
  }

  function Or<T>(a: Option<T>, b: Option<T>): Option<T> {
    if a.Some? then a else b
  }

  /** Totals are cumulative; a field that is absent keeps its earlier value. */
  function MergedUsage(update: Usage, u: Usage): Usage {
    Usage(Or(update.input, u.input), Or(update.output, u.output),
          Or(update.cacheRead, u.cacheRead), Or(update.cacheWrite, u.cacheWrite))
  }

  predicate IsLeast(keys: set<nat>, k: nat) {
    k in keys && forall j :: j in keys ==> k <= j
  }

  function Least(keys: set<nat>): (k: nat)
    requires keys != {}
    ensures IsLeast(keys, k)
  {
    LeastExists(keys);
    var k :| IsLeast(keys, k);
    k
  }

  lemma LeastExists(keys: set<nat>)
    requires keys != {}
    ensures exists k :: IsLeast(keys, k)
  {
    var k := FindLeast(keys);
  }

  lemma {:induction false} FindLeast(keys: set<nat>) returns (k: nat)
    requires keys != {}
    ensures IsLeast(keys, k)
    decreases |keys|
  {
    k :| k in keys;
    var rest := keys - {k};
    assert keys == rest + {k};
    if rest != {} {
      var m := FindLeast(rest);
      if m < k { k := m; }
    }
  }

  /** The keys in ascending order. */
  function Ascending(keys: set<nat>): seq<nat>
    decreases |keys|
  {
    if keys == {} then [] else [Least(keys)] + Ascending(keys - {Least(keys)})
  }

  lemma {:induction false} AscendingIsSorted(keys: set<nat>)
    ensures var ks := Ascending(keys);
            && |ks| == |keys| && (forall k :: k in ks <==> k in keys)
            && (forall i, j :: 0 <= i < j < |ks| ==> ks[i] < ks[j])
    decreases |keys|
  {
    if keys != {} {
      var k := Least(keys);
      var rest := Ascending(keys - {k});
      AscendingIsSorted(keys - {k});
      assert |keys - {k}| == |keys| - 1;
      assert Ascending(keys) == [k] + rest;
      assert forall j :: j in keys <==> j == k || j in keys - {k};
      forall i, j | 0 <= i < j < |rest| + 1 ensures ([k] + rest)[i] < ([k] + rest)[j] {
        assert rest[j - 1] in rest;
      }
    }
  }

  /** The blocks at these indices, in their order. */
  function Contents(blocks: map<nat, Content>, indices: seq<nat>): seq<Content>
    requires forall i :: 0 <= i < |indices| ==> indices[i] in blocks
  {
    seq(|indices|, i requires 0 <= i < |indices| => blocks[indices[i]])
  }

  function InOrder(blocks: map<nat, Content>): seq<Content> {
    AscendingIsSorted(blocks.Keys);
    Contents(blocks, Ascending(blocks.Keys))
  }

  /** The text blocks among the first `n`, one after the other. */
  function JoinedText(content: seq<Content>, n: nat): string
    requires n <= |content|
  {
    if n == 0 then ""
    else JoinedText(content, n - 1) + if content[n - 1].TextContent? then content[n - 1].text else ""
  }

  function CompletedMessage(lib: Library, s: Message): Option<ModelEvent> {
    if s.open != map[] || s.stopReason.None? then None
    else
      var content := InOrder(s.blocks);
      var structured := if lib.structured then lib.parse(JoinedText(content, |content|)) else None;
      Some(Completed(content, structured, s.stopReason.value, s.usage, s.id))
  }

  /** The message after one block event, if it is accepted. */
  function WithBlock(lib: Library, s: Message, i: nat, e: SlotEvent): Option<Message> {
    var slot := SlotAfter(lib, SlotAt(s, i), e);
    if slot.None? then None
    else Some(s.(open := Updated(s.open, i, slot.value.open), blocks := Updated(s.blocks, i, slot.value.done)))
  }

  function ReportOf(lib: Library, open: Option<Open>, e: SlotEvent): ModelEvent {
    var answer := Slotted(lib, open, e);
    if answer.Some? && answer.value.report.Some? then answer.value.report.value else Metadata
  }

  /** One event: the message it leaves and what it reports, unless it is refused. */
  function Told(lib: Library, s: Message, e: WireEvent): Option<(Message, ModelEvent)> {
    match e
    case MessageStart(message) =>
      Some((if message.Some? then s.(id := message.value.0, usage := message.value.1) else s, Opening))
    case BlockEvent(index, slot) =>
      var i := IndexOf(index);
      var t := WithBlock(lib, s, i, slot);
      if t.None? then None else Some((t.value, ReportOf(lib, Lookup(s.open, i), slot)))
    case MessageDelta(stopReason, usage) =>
      var u := if usage.Some? then MergedUsage(usage.value, s.usage) else s.usage;
      Some((s.(stopReason := stopReason, usage := u), UsageSoFar(u)))
    case MessageStop =>
      var completed := CompletedMessage(lib, s);
      if completed.None? then None else Some((s, completed.value))
    case ErrorEvent(_) => None
    case OtherEvent(_) => Some((s, Metadata))
  }

  /** The message after the first `n` events, if all are accepted. */
  function RunUpTo(lib: Library, events: seq<WireEvent>, n: nat): Option<Message>
    requires n <= |events|
  {
    if n == 0 then Some(NEW)
    else
      var earlier := RunUpTo(lib, events, n - 1);
      if earlier.None? then None
      else
        var told := Told(lib, earlier.value, events[n - 1]);
        if told.None? then None else Some(told.value.0)
  }

  // ----------------------------------------------------------------- non-interference

  /** The events at one index among the first `n`. */
  function At(events: seq<WireEvent>, i: nat, n: nat): seq<SlotEvent>
    requires n <= |events|
  {
    if n == 0 then []
    else if events[n - 1].BlockEvent? && IndexOf(events[n - 1].index) == i then At(events, i, n - 1) + [events[n - 1].slot]
    else At(events, i, n - 1)
  }

  lemma {:induction false} SlotRunOfPrefix(lib: Library, events: seq<SlotEvent>, longer: seq<SlotEvent>, n: nat)
    requires events <= longer && n <= |events|
    ensures SlotRun(lib, longer, n) == SlotRun(lib, events, n)
  {
    if n > 0 { SlotRunOfPrefix(lib, events, longer, n - 1); }
  }

  /** The index after all of its events among the first `n`. */
  function SlotOf(lib: Library, events: seq<WireEvent>, i: nat, n: nat): Option<Slot>
    requires n <= |events|
  {
    SlotRun(lib, At(events, i, n), |At(events, i, n)|)
  }

  lemma SlotOfStep(lib: Library, events: seq<WireEvent>, i: nat, n: nat)
    requires 0 < n <= |events|
    ensures SlotOf(lib, events, i, n)
            == if !(events[n - 1].BlockEvent? && IndexOf(events[n - 1].index) == i) then SlotOf(lib, events, i, n - 1)
               else if SlotOf(lib, events, i, n - 1).None? then None
               else SlotAfter(lib, SlotOf(lib, events, i, n - 1).value, events[n - 1].slot)
  {
    var before, now := At(events, i, n - 1), At(events, i, n);
    if events[n - 1].BlockEvent? && IndexOf(events[n - 1].index) == i {
      SlotRunOfPrefix(lib, before, now, |before|);
    }
  }

  /** What an accepted message holds at an index depends on that index's events alone. */
  lemma {:induction false} IndexIsIndependent(lib: Library, events: seq<WireEvent>, i: nat, n: nat)
    requires n <= |events| && RunUpTo(lib, events, n).Some?
    ensures SlotOf(lib, events, i, n) == Some(SlotAt(RunUpTo(lib, events, n).value, i))
  {
    if n > 0 {
      IndexIsIndependent(lib, events, i, n - 1);
      SlotOfStep(lib, events, i, n);
    }
  }

  /** Only an error event or an untimely stop can be refused for a reason outside its index. */
  predicate IsLocal(e: WireEvent) {
    !e.MessageStop? && !e.ErrorEvent?
  }

  /** A run of local events is accepted exactly when every index accepts its own events. */
  lemma {:induction false} AcceptedIndexByIndex(lib: Library, events: seq<WireEvent>, n: nat)
    requires n <= |events| && forall k :: 0 <= k < n ==> IsLocal(events[k])
    ensures RunUpTo(lib, events, n).Some? <==> forall i: nat :: SlotOf(lib, events, i, n).Some?
  {
    if n > 0 {
      AcceptedIndexByIndex(lib, events, n - 1);
      forall i: nat ensures SlotOf(lib, events, i, n).Some? ==> SlotOf(lib, events, i, n - 1).Some? { SlotOfStep(lib, events, i, n); }
      if RunUpTo(lib, events, n - 1).Some? {
        if RunUpTo(lib, events, n).Some? {
          forall i: nat ensures SlotOf(lib, events, i, n).Some? { IndexIsIndependent(lib, events, i, n); }
        } else {
          var i := IndexOf(events[n - 1].index);
          IndexIsIndependent(lib, events, i, n - 1);
          SlotOfStep(lib, events, i, n);
        }
      } else {
        var i: nat :| SlotOf(lib, events, i, n - 1).None?;
        assert SlotOf(lib, events, i, n).None?;
      }
    }
  }

  /** Two interleavings of the same per-index events are accepted together and hold the same blocks. */
  lemma InterleavingIsIrrelevant(lib: Library, a: seq<WireEvent>, b: seq<WireEvent>)
    requires forall k :: 0 <= k < |a| ==> IsLocal(a[k])
    requires forall k :: 0 <= k < |b| ==> IsLocal(b[k])
    requires forall i: nat :: At(a, i, |a|) == At(b, i, |b|)
    ensures RunUpTo(lib, a, |a|).Some? <==> RunUpTo(lib, b, |b|).Some?
    ensures RunUpTo(lib, a, |a|).Some? ==>
              && RunUpTo(lib, a, |a|).value.open == RunUpTo(lib, b, |b|).value.open
              && RunUpTo(lib, a, |a|).value.blocks == RunUpTo(lib, b, |b|).value.blocks
  {
    AcceptedIndexByIndex(lib, a, |a|);
    AcceptedIndexByIndex(lib, b, |b|);
    forall i: nat ensures SlotOf(lib, a, i, |a|) == SlotOf(lib, b, i, |b|) {
      assert At(a, i, |a|) == At(b, i, |b|);
    }
    if RunUpTo(lib, a, |a|).Some? && RunUpTo(lib, b, |b|).Some? {
      var s, t := RunUpTo(lib, a, |a|).value, RunUpTo(lib, b, |b|).value;
      forall i: nat ensures SlotAt(s, i) == SlotAt(t, i) {
        IndexIsIndependent(lib, a, i, |a|);
        IndexIsIndependent(lib, b, i, |b|);
      }
      SlotsAreMessage(s, t);
    }
  }

  lemma SlotsAreMessage(s: Message, t: Message)
    requires forall i: nat :: SlotAt(s, i) == SlotAt(t, i)
    ensures s.open == t.open && s.blocks == t.blocks
  {
    forall i: nat ensures (i in s.open <==> i in t.open) && (i in s.open ==> s.open[i] == t.open[i]) { assert SlotAt(s, i) == SlotAt(t, i); }
    forall i: nat ensures (i in s.blocks <==> i in t.blocks) && (i in s.blocks ==> s.blocks[i] == t.blocks[i]) { assert SlotAt(s, i) == SlotAt(t, i); }
  }

  /**
   A message stops successfully exactly when it has a stop reason and at no index
   is a block still open.
   */
  lemma StopNeedsAllStopped(lib: Library, events: seq<WireEvent>, n: nat)
    requires n < |events| && RunUpTo(lib, events, n).Some? && events[n].MessageStop?
    ensures RunUpTo(lib, events, n + 1).Some?
            <==> RunUpTo(lib, events, n).value.stopReason.Some?
                 && forall i: nat :: SlotOf(lib, events, i, n).Some? && SlotOf(lib, events, i, n).value.open.None?
  {
    var s := RunUpTo(lib, events, n).value;
    forall i: nat ensures SlotOf(lib, events, i, n) == Some(SlotAt(s, i)) { IndexIsIndependent(lib, events, i, n); }
    if s.open != map[] {
      var i :| i in s.open;
      assert SlotAt(s, i).open.Some?;
    }
  }
}
