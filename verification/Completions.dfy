/**
 What a mapped message reports and completes to, in terms of the events received: the
 blocks by index, the last stop reason and the last usage given, and which blocks are
 accepted.
 */
module Completions {
  import opened Wrappers
  import opened Blocks

  // ---------------------------------------------------------------- the last of each

  datatype Field = InputField | OutputField | CacheReadField | CacheWriteField

  function Amount(usage: Usage, field: Field): Option<nat> {
    match field
    case InputField => usage.input
    case OutputField => usage.output
    case CacheReadField => usage.cacheRead
    case CacheWriteField => usage.cacheWrite
  }

  /** What an event gives for a usage field: a message's start gives it, if only as absent; a delta only if present. */
  function Given(e: WireEvent, field: Field): Option<Option<nat>> {
    match e
    case MessageStart(Some(message)) => Some(Amount(message.1, field))
    case MessageDelta(_, Some(usage)) => if Amount(usage, field).Some? then Some(Amount(usage, field)) else None
    case _ => None
  }

  /** The last of the first `n` events that gives the field gives this; or none does and it is absent. */
  ghost predicate IsLastAmount(events: seq<WireEvent>, n: nat, field: Field, amount: Option<nat>)
    requires n <= |events|
  {
    if forall k :: 0 <= k < n ==> Given(events[k], field).None? then amount == None
    else exists m :: 0 <= m < n && Given(events[m], field) == Some(amount) && forall k :: m < k < n ==> Given(events[k], field).None?
  }

  /** The last message delta among the first `n` events carries this reason; or there is none. */
  ghost predicate IsLastReason(events: seq<WireEvent>, n: nat, reason: Option<string>)
    requires n <= |events|
  {
    if forall k :: 0 <= k < n ==> !events[k].MessageDelta? then reason == None
    else exists m :: 0 <= m < n && events[m].MessageDelta? && events[m].stopReason == reason && forall k :: m < k < n ==> !events[k].MessageDelta?
  }

  /** The last message start among the first `n` events that carries a message names it so. */
  ghost predicate IsLastId(events: seq<WireEvent>, n: nat, id: string)
    requires n <= |events|
  {
    if forall k :: 0 <= k < n ==> !Names(events[k]) then id == ""
    else exists m :: 0 <= m < n && Names(events[m]) && events[m].message.value.0 == id && forall k :: m < k < n ==> !Names(events[k])
  }

  predicate Names(e: WireEvent) {
    e.MessageStart? && e.message.Some?
  }

  lemma {:induction false} AmountIsLast(lib: Library, events: seq<WireEvent>, n: nat, field: Field)
    requires n <= |events| && RunUpTo(lib, events, n).Some?
    ensures IsLastAmount(events, n, field, Amount(RunUpTo(lib, events, n).value.usage, field))
  {
    if n > 0 {
      AmountIsLast(lib, events, n - 1, field);
      var before := Amount(RunUpTo(lib, events, n - 1).value.usage, field);
      AmountMoves(lib, RunUpTo(lib, events, n - 1).value, events[n - 1], field);
      if Given(events[n - 1], field).None? && !(forall k :: 0 <= k < n - 1 ==> Given(events[k], field).None?) {
        var m :| 0 <= m < n - 1 && Given(events[m], field) == Some(before) && forall k :: m < k < n - 1 ==> Given(events[k], field).None?;
        assert forall k :: m < k < n ==> Given(events[k], field).None?;
      }
    }
  }

  /** One event moves a usage field to what it gives. */
  lemma AmountMoves(lib: Library, s: Message, e: WireEvent, field: Field)
    requires Told(lib, s, e).Some?
    ensures Amount(Told(lib, s, e).value.0.usage, field)
            == if Given(e, field).Some? then Given(e, field).value else Amount(s.usage, field)
  {
  }

  lemma {:induction false} ReasonIsLast(lib: Library, events: seq<WireEvent>, n: nat)
    requires n <= |events| && RunUpTo(lib, events, n).Some?
    ensures IsLastReason(events, n, RunUpTo(lib, events, n).value.stopReason)
  {
    if n > 0 {
      ReasonIsLast(lib, events, n - 1);
      var before := RunUpTo(lib, events, n - 1).value.stopReason;
      if !events[n - 1].MessageDelta? && !(forall k :: 0 <= k < n - 1 ==> !events[k].MessageDelta?) {
        var m :| 0 <= m < n - 1 && events[m].MessageDelta? && events[m].stopReason == before && forall k :: m < k < n - 1 ==> !events[k].MessageDelta?;
        assert forall k :: m < k < n ==> !events[k].MessageDelta?;
      }
    }
  }

  lemma {:induction false} IdIsLast(lib: Library, events: seq<WireEvent>, n: nat)
    requires n <= |events| && RunUpTo(lib, events, n).Some?
    ensures IsLastId(events, n, RunUpTo(lib, events, n).value.id)
  {
    if n > 0 {
      IdIsLast(lib, events, n - 1);
      var before := RunUpTo(lib, events, n - 1).value.id;
      if !Names(events[n - 1]) && !(forall k :: 0 <= k < n - 1 ==> !Names(events[k])) {
        var m :| 0 <= m < n - 1 && Names(events[m]) && events[m].message.value.0 == before && forall k :: m < k < n - 1 ==> !Names(events[k]);
        assert forall k :: m < k < n ==> !Names(events[k]);
      }
    }
  }

  // -------------------------------------------------------------------- a completion

  /** The block completed at this index by its events among the first `n`, if there is one. */
  function DoneAt(lib: Library, events: seq<WireEvent>, i: nat, n: nat): Option<Content>
    requires n <= |events|
  {
    var slot := SlotOf(lib, events, i, n);
    if slot.Some? then slot.value.done else None
  }

  /** The content lists the completed blocks of all indices, in ascending order of index. */
  ghost predicate IsContent(lib: Library, events: seq<WireEvent>, n: nat, content: seq<Content>, indices: seq<nat>)
    requires n <= |events|
  {
    && |indices| == |content| && (forall a, b :: 0 <= a < b < |indices| ==> indices[a] < indices[b])
    && (forall k :: 0 <= k < |indices| ==> DoneAt(lib, events, indices[k], n) == Some(content[k]))
    && (forall i: nat :: DoneAt(lib, events, i, n).Some? ==> i in indices)
  }

  /** All texts of the content, one after the other. */
  function AllText(content: seq<Content>): string {
    if content == [] then ""
    else (match content[0] case TextContent(text) => text case _ => "") + AllText(content[1..])
  }

  /** Each usage field is the last one given. */
  ghost predicate IsUsage(events: seq<WireEvent>, n: nat, usage: Usage)
    requires n <= |events|
  {
    forall field :: IsLastAmount(events, n, field, Amount(usage, field))
  }

  /** The completion that the first `n` events amount to. */
  ghost predicate IsCompletion(lib: Library, events: seq<WireEvent>, n: nat, report: ModelEvent)
    requires n <= |events|
  {
    && report.Completed?
    && (exists indices :: IsContent(lib, events, n, report.content, indices))
    && report.structured == (if lib.structured then lib.parse(AllText(report.content)) else None)
    && IsLastReason(events, n, Some(report.stopReason)) && IsUsage(events, n, report.usage) && IsLastId(events, n, report.id)
  }

  lemma {:induction false} TextOfFront(content: seq<Content>, n: nat)
    requires n <= |content|
    ensures AllText(content[..n]) == JoinedText(content, n)
  {
    if n > 0 {
      TextOfFront(content, n - 1);
      assert content[..n] == content[..n - 1] + [content[n - 1]];
      TextOfBoth(content[..n - 1], [content[n - 1]]);
      assert [content[n - 1]][1..] == [];
    }
  }

  lemma {:induction false} TextOfBoth(a: seq<Content>, b: seq<Content>)
    ensures AllText(a + b) == AllText(a) + AllText(b)
  {
    if a == [] {
      assert a + b == b;
    } else {
      assert (a + b)[0] == a[0] && (a + b)[1..] == a[1..] + b;
      TextOfBoth(a[1..], b);
    }
  }

  /** The blocks of a message are those completed at each index. */
  lemma BlocksAreDone(lib: Library, events: seq<WireEvent>, n: nat, i: nat)
    requires n <= |events| && RunUpTo(lib, events, n).Some?
    ensures DoneAt(lib, events, i, n) == Lookup(RunUpTo(lib, events, n).value.blocks, i)
  {
    IndexIsIndependent(lib, events, i, n);
  }

  lemma ContentIsInOrder(lib: Library, events: seq<WireEvent>, n: nat)
    requires n <= |events| && RunUpTo(lib, events, n).Some?
    ensures var blocks := RunUpTo(lib, events, n).value.blocks;
            IsContent(lib, events, n, InOrder(blocks), Ascending(blocks.Keys))
  {
    var blocks := RunUpTo(lib, events, n).value.blocks;
    var indices := Ascending(blocks.Keys);
    AscendingIsSorted(blocks.Keys);
    forall k | 0 <= k < |indices| ensures DoneAt(lib, events, indices[k], n) == Some(InOrder(blocks)[k]) {
      assert indices[k] in indices;
      BlocksAreDone(lib, events, n, indices[k]);
    }
    forall i: nat | DoneAt(lib, events, i, n).Some? ensures i in indices { BlocksAreDone(lib, events, n, i); }
  }

  lemma StructuredIsText(content: seq<Content>)
    ensures AllText(content) == JoinedText(content, |content|)
  {
    TextOfFront(content, |content|);
    assert content[..|content|] == content;
  }

  /** A message that stops completes to its blocks by index, its last reason, usage and id. */
  lemma CompletionIsExact(lib: Library, events: seq<WireEvent>, n: nat)
    requires n < |events| && RunUpTo(lib, events, n).Some? && Told(lib, RunUpTo(lib, events, n).value, events[n]).Some?
    requires events[n].MessageStop?
    ensures IsCompletion(lib, events, n, Told(lib, RunUpTo(lib, events, n).value, events[n]).value.1)
  {
    var s := RunUpTo(lib, events, n).value;
    var content := InOrder(s.blocks);
    ContentIsInOrder(lib, events, n);
    StructuredIsText(content);
    ReasonIsLast(lib, events, n);
    IdIsLast(lib, events, n);
    UsageIsLast(lib, events, n);
  }

  lemma UsageIsLast(lib: Library, events: seq<WireEvent>, n: nat)
    requires n <= |events| && RunUpTo(lib, events, n).Some?
    ensures IsUsage(events, n, RunUpTo(lib, events, n).value.usage)
  {
    var usage := RunUpTo(lib, events, n).value.usage;
    forall field ensures IsLastAmount(events, n, field, Amount(usage, field)) { AmountIsLast(lib, events, n, field); }
  }

  // --------------------------------------------------------------- acceptance, reports

  /** The delta belongs to a block of this kind; an unknown one belongs to any. */
  predicate Fits(kind: BlockKind, delta: Delta) {
    match delta
    case TextDelta(_) => kind == TextKind
    case ThinkingDelta(_) => kind == ThinkingKind
    case SignatureDelta(_) => kind == ThinkingKind
    case InputJsonDelta(_) => kind == ToolKind
    case UnknownDelta => true
  }

  /** A tool call must be named. */
  predicate IsNamed(b: RawBlock) {
    b.kind == ToolKind ==> b.id != "" && b.name != ""
  }

  /** A tool call's arguments must be an object: its input, or what its partial text parses to. */
  predicate HasArguments(lib: Library, b: RawBlock, partial: string) {
    b.kind == ToolKind ==>
      if partial == "" then b.input.isObject else lib.parse(partial).Some? && lib.parse(partial).value.isObject
  }

  /** When an index accepts an event: a start of a named block while none is open, and what fits an open one. */
  lemma AcceptedExactlyWhen(lib: Library, slot: Slot, e: SlotEvent)
    ensures SlotAfter(lib, slot, e).Some?
            <==> match e
                 case Start(block) => block.Some? && slot.open.None? && IsNamed(block.value)
                 case Edit(delta) => delta.Some? && slot.open.Some? && Fits(slot.open.value.block.kind, delta.value)
                 case Stop => && slot.open.Some? && HasArguments(lib, slot.open.value.block, slot.open.value.arguments)
                              && (slot.done.Some? ==> slot.open.value.block.kind == UnknownKind)
  {
  }

  /** A block's whole life is accepted exactly when it is named, every delta fits and its arguments are an object. */
  lemma LifeAcceptedExactlyWhen(lib: Library, b: RawBlock, deltas: seq<Delta>)
    ensures SlotRun(lib, BlockLife(b, deltas), |deltas| + 2).Some?
            <==> IsNamed(b) && (forall k :: 0 <= k < |deltas| ==> Fits(b.kind, deltas[k]))
                 && HasArguments(lib, b, PartialUpTo(deltas, |deltas|))
  {
    var events := BlockLife(b, deltas);
    OpenLifeExactlyWhen(lib, b, deltas, |deltas|);
    assert events[|deltas| + 1] == Stop;
    if SlotRun(lib, events, |deltas| + 1).Some? {
      AssembledSlot(lib, b, deltas, |deltas|);
      AcceptedExactlyWhen(lib, SlotRun(lib, events, |deltas| + 1).value, Stop);
    }
  }

  lemma {:induction false} OpenLifeExactlyWhen(lib: Library, b: RawBlock, deltas: seq<Delta>, n: nat)
    requires n <= |deltas|
    ensures SlotRun(lib, BlockLife(b, deltas), n + 1).Some? <==> IsNamed(b) && forall k :: 0 <= k < n ==> Fits(b.kind, deltas[k])
  {
    var events := BlockLife(b, deltas);
    if n == 0 {
      assert events[0] == Start(Some(b));
      assert SlotRun(lib, events, 0) == Some(EMPTY);
      AcceptedExactlyWhen(lib, EMPTY, Start(Some(b)));
    } else {
      OpenLifeExactlyWhen(lib, b, deltas, n - 1);
      assert events[n] == Edit(Some(deltas[n - 1]));
      if SlotRun(lib, events, n).Some? {
        AssembledSlot(lib, b, deltas, n - 1);
        AcceptedExactlyWhen(lib, SlotRun(lib, events, n).value, Edit(Some(deltas[n - 1])));
      }
    }
  }

  /** What an accepted block event reports; `open` is the block open at its index before. */
  ghost predicate IsBlockReport(lib: Library, open: Option<Open>, e: SlotEvent, report: ModelEvent) {
    match e
    case Start(Some(b)) => report == if b.kind == ToolKind then ToolStarted(b.id, b.name) else Metadata
    case Edit(Some(TextDelta(text))) => report == TextPart(text)
    case Edit(Some(ThinkingDelta(text))) => report == ReasoningPart(text)
    case Edit(Some(InputJsonDelta(partial))) => open.Some? && report == ToolArgumentsPart(open.value.block.id, partial)
    case Stop =>
      if open.Some? && open.value.block.kind == ToolKind
      then report.ToolCompleted? && report.call.ToolCall? && report.call.id == open.value.block.id
           && report.call.name == open.value.block.name
           && Some(report.call.arguments)
              == (if open.value.arguments == "" then Some(open.value.block.input) else lib.parse(open.value.arguments))
      else report == Metadata
    case _ => report == Metadata
  }

  /** What an accepted event reports. */
  ghost predicate IsReport(lib: Library, events: seq<WireEvent>, n: nat, report: ModelEvent)
    requires n < |events|
  {
    match events[n]
    case MessageStart(_) => report == Opening
    case BlockEvent(index, slot) =>
      var before := SlotOf(lib, events, IndexOf(index), n);
      before.Some? && IsBlockReport(lib, before.value.open, slot, report)
    case MessageDelta(_, _) => report.UsageSoFar? && IsUsage(events, n + 1, report.usage)
    case MessageStop => IsCompletion(lib, events, n, report)
    case ErrorEvent(_) => false
    case OtherEvent(_) => report == Metadata
  }

  lemma BlockReportIsExact(lib: Library, open: Option<Open>, e: SlotEvent)
    requires Slotted(lib, open, e).Some?
    ensures IsBlockReport(lib, open, e, ReportOf(lib, open, e))
  {
  }

  /** Every accepted event reports what it carries; the stop reports the completion. */
  lemma ReportIsExact(lib: Library, events: seq<WireEvent>, n: nat)
    requires n < |events| && RunUpTo(lib, events, n).Some? && Told(lib, RunUpTo(lib, events, n).value, events[n]).Some?
    ensures IsReport(lib, events, n, Told(lib, RunUpTo(lib, events, n).value, events[n]).value.1)
  {
    var s := RunUpTo(lib, events, n).value;
    match events[n]
    case BlockEvent(index, slot) =>
      IndexIsIndependent(lib, events, IndexOf(index), n);
      BlockReportIsExact(lib, Lookup(s.open, IndexOf(index)), slot);
    case MessageDelta(_, _) => UsageIsLast(lib, events, n + 1);
    case MessageStop => CompletionIsExact(lib, events, n);
    case _ =>
  }
}
