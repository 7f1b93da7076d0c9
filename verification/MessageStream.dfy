/**
 The provider's message stream as the program maps it: open blocks and message state
 updated event by event, and the mapped stream with its completion or error last.
 */
module MessageStream {
  import opened Wrappers
  import opened Blocks
  import opened Completions

  // -------------------------------------------------------------------- the classes

  class OpenBlocks {
    var open: map<nat, Open>

    constructor ()
      ensures open == map[]
    {
      open := map[];
    }

    /** One block event at its index; every other index is as it was. */
    method Event(lib: Library, index: nat, e: SlotEvent) returns (r: Option<(Option<ModelEvent>, Option<Content>)>)
      modifies this
      ensures var answer := Slotted(lib, Lookup(old(open), index), e);
              if answer.None? then r.None?
              else r == Some((answer.value.report, answer.value.done))
                   && open == Updated(old(open), index, answer.value.open)
    {
      match e
      case Start(block) =>
        if block.None? || index in open {
          return None;
        }
        var b := block.value;
        if b.kind.ToolKind? && (b.id == "" || b.name == "") {
          return None;
        }
        open := open[index := Open(b, "")];
        return Some((if b.kind.ToolKind? then Some(ToolStarted(b.id, b.name)) else None, None));
      case Edit(delta) =>
        if index !in open || delta.None? {
          return None;
        }
        var edited := Edited(open[index], delta.value);
        if edited.None? {
          return None;
        }
        open := open[index := edited.value.open.value];
        return Some((edited.value.report, None));
      case Stop =>
        if index !in open {
          return None;
        }
        var block := open[index];
        open := open - {index};
        var stopped := Stopped(lib, block);
        if stopped.None? {
          return None;
        }
        return Some((stopped.value.report, stopped.value.done));
    }
  }

  class AnthropicState {
    const lib: Library
    const active: OpenBlocks
    var id: string
    var usage: Usage
    var blocks: map<nat, Content>
    var stopReason: Option<string>

    ghost function View(): Message
      reads this, active
    {
      Message(id, usage, active.open, blocks, stopReason)
    }

    constructor (lib: Library)
      ensures this.lib == lib && fresh(active) && View() == NEW
    {
      this.lib := lib;
      active := new OpenBlocks();
      id, usage, blocks, stopReason := "", Usage(None, None, None, None), map[], None;
    }

    /** One event of the message stream. */
    method Event(e: WireEvent) returns (r: Option<ModelEvent>)
      modifies this, active
      ensures var told := Told(lib, old(View()), e);
              if told.None? then r.None? else r == Some(told.value.1) && View() == told.value.0
    {
      match e
      case MessageStart(message) =>
        if message.Some? {
          id, usage := message.value.0, message.value.1;
        }
        return Some(Opening);
      case BlockEvent(index, slot) =>
        r := Block(IndexOf(index), slot);
      case MessageDelta(reason, update) =>
        stopReason := reason;
        if update.Some? {
          usage := MergedUsage(update.value, usage);
        }
        return Some(UsageSoFar(usage));
      case MessageStop =>
        if active.open != map[] || stopReason.None? {
          return None;
        }
        var content := InOrder(blocks);
        var structured := if lib.structured then lib.parse(JoinedText(content, |content|)) else None;
        return Some(Completed(content, structured, stopReason.value, usage, id));
      case ErrorEvent(_) => return None;
      case OtherEvent(_) => return Some(Metadata);
    }

    method Block(index: nat, e: SlotEvent) returns (r: Option<ModelEvent>)
      modifies this, active
      ensures var t := WithBlock(lib, old(View()), index, e);
              if t.None? then r.None?
              else r == Some(ReportOf(lib, Lookup(old(active.open), index), e)) && View() == t.value
    {
      var answer := active.Event(lib, index, e);
      if answer.None? {
        return None;
      }
      var done := answer.value.1;
      if done.Some? {
        var duplicate := index in blocks;
        blocks := blocks[index := done.value];
        if duplicate {
          return None;
        }
      }
      return Some(if answer.value.0.Some? then answer.value.0.value else Metadata);
    }
  }

  // --------------------------------------------------------------- the mapped stream

  /** The first `n` events are accepted, and this is what the next one reports. */
  ghost predicate Reports(lib: Library, events: seq<WireEvent>, n: nat, report: ModelEvent)
    requires n < |events|
  {
    var s := RunUpTo(lib, events, n);
    s.Some? && Told(lib, s.value, events[n]).Some? && Told(lib, s.value, events[n]).value.1 == report
  }

  lemma ReportsStay(lib: Library, events: seq<WireEvent>, longer: seq<WireEvent>, n: nat, report: ModelEvent)
    requires events <= longer && n < |events| && Reports(lib, events, n, report)
    ensures Reports(lib, longer, n, report)
  {
    RunOfPrefix(lib, events, longer, n);
  }

  /** After `n` reported events the stream ends, breaks off, or its next event is refused or completes invalidly. */
  ghost predicate Fails(lib: Library, received: seq<Option<WireEvent>>, events: seq<WireEvent>, n: nat, validates: ModelEvent -> bool) {
    if |events| == n then |received| == n || (n < |received| && received[n].None?)
    else
      && |events| == n + 1 && RunUpTo(lib, events, n).Some?
      && var told := Told(lib, RunUpTo(lib, events, n).value, events[n]);
         told.None? || (told.value.1.Completed? && !validates(told.value.1))
  }

  /**
   What a provider stream maps to: the reports of its accepted events in order, up
   to and including a completion that the validator accepts; otherwise a refused
   event, a transport error or the end of the stream puts one error last. What each
   item reports, and what the completion holds, is given by the events received.
   */
  method MapStream(lib: Library, received: seq<Option<WireEvent>>, validates: ModelEvent -> bool)
    returns (items: seq<Option<ModelEvent>>, ghost events: seq<WireEvent>)
    ensures |items| > 0 && |events| <= |received| && forall k :: 0 <= k < |events| ==> received[k] == Some(events[k])
    ensures forall k :: 0 <= k < |items| - 1 ==> items[k].Some? && !items[k].value.Completed?
    ensures var last := items[|items| - 1];
            last.None? || (last.value.Completed? && validates(last.value))
    ensures forall k :: 0 <= k < |items| && items[k].Some? ==> k < |events| && Reports(lib, events, k, items[k].value)
    ensures forall k :: 0 <= k < |items| && items[k].Some? ==> k < |events| && IsReport(lib, events, k, items[k].value)
    ensures items[|items| - 1].None? ==> Fails(lib, received, events, |items| - 1, validates)
  {
    items, events := MapEvents(lib, received, validates);
    forall k | 0 <= k < |items| && items[k].Some? ensures k < |events| && IsReport(lib, events, k, items[k].value) {
      assert Reports(lib, events, k, items[k].value);
      ReportIsExact(lib, events, k);
    }
  }

  /** The mapping loop. */
  method MapEvents(lib: Library, received: seq<Option<WireEvent>>, validates: ModelEvent -> bool)
    returns (items: seq<Option<ModelEvent>>, ghost events: seq<WireEvent>)
    ensures |items| > 0 && |events| <= |received| && forall k :: 0 <= k < |events| ==> received[k] == Some(events[k])
    ensures forall k :: 0 <= k < |items| - 1 ==> items[k].Some? && !items[k].value.Completed?
    ensures var last := items[|items| - 1];
            last.None? || (last.value.Completed? && validates(last.value))
    ensures forall k :: 0 <= k < |items| && items[k].Some? ==> k < |events| && Reports(lib, events, k, items[k].value)
    ensures items[|items| - 1].None? ==> Fails(lib, received, events, |items| - 1, validates)
  {
    var state := new AnthropicState(lib);
    items, events := [], [];
    while true
      invariant fresh(state) && fresh(state.active) && state.lib == lib
      invariant |items| == |events| <= |received|
      invariant forall k :: 0 <= k < |items| ==> received[k] == Some(events[k])
      invariant forall k :: 0 <= k < |items| ==> items[k].Some? && !items[k].value.Completed?
      invariant forall k :: 0 <= k < |items| ==> Reports(lib, events, k, items[k].value)
      invariant RunUpTo(lib, events, |events|) == Some(state.View())
      decreases |received| - |items|
    {
      if |items| == |received| || received[|items|].None? {
        items := items + [None];
        return;
      }
      var e := received[|items|].value;
      ghost var before := events;
      events := events + [e];
      RunOfPrefix(lib, before, events, |before|);
      forall k | 0 <= k < |items| ensures Reports(lib, events, k, items[k].value) {
        ReportsStay(lib, before, events, k, items[k].value);
      }
      var result := state.Event(e);
      if result.Some? && result.value.Completed? && !validates(result.value) {
        result := None;
      }
      items := items + [result];
      if result.None? || result.value.Completed? {
        return;
      }
    }
  }

  lemma {:induction false} RunOfPrefix(lib: Library, events: seq<WireEvent>, longer: seq<WireEvent>, n: nat)
    requires events <= longer && n <= |events|
    ensures RunUpTo(lib, longer, n) == RunUpTo(lib, events, n)
  {
    if n > 0 { RunOfPrefix(lib, events, longer, n - 1); }
  }
}
