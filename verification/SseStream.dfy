/**
 The event stream decoder as the program keeps it: its fields, updated byte by byte over
 arbitrary chunks, and the caller that drives it over a whole stream.
 */
module SseStream {
  import opened Wrappers
  import opened SseDecoder
  import opened SseEvents

  // ------------------------------------------------------------------- the class

  class Decoder {
    const lib: Library
    var line: Bytes
    var kind: Bytes
    var data: seq<Bytes>
    var afterCr: bool
    var lastEventId: Bytes
    var retry: Option<int>
    var deferred: Option<Bytes>

    /** The decoder's state as a scan that has emitted nothing yet. */
    ghost function State(): Scan
      reads this
    {
      Scan(Reading(Frame(kind, data, lastEventId, retry), [], None), line, afterCr)
    }

    constructor (lib: Library)
      ensures this.lib == lib && State() == START && deferred == None
    {
      this.lib := lib;
      line, kind, data, afterCr, lastEventId, retry, deferred := [], [], [], false, [], None, None;
    }

    /** One nonblank line that is no comment. */
    method TakeField(text: Bytes)
      modifies this`kind, this`data, this`lastEventId, this`retry
      ensures Frame(kind, data, lastEventId, retry) == WithField(lib, old(Frame(kind, data, lastEventId, retry)), text)
    {
      var colon := ColonFrom(text, 0);
      var value := ValueOf(text, colon);
      match FieldOf(text[..colon])
      case EventField => kind := value;
      case DataField => data := data + [value];
      case IdField => if NUL !in value { lastEventId := value; }
      case RetryField =>
        var parsed := lib.retry(value);
        if parsed.Some? { retry := parsed; }
      case OtherField =>
    }

    /** One blank line. */
    method TakeFrame() returns (events: seq<Event>)
      modifies this`kind, this`data, this`retry
      ensures events == Emitted(old(Frame(kind, data, lastEventId, retry)), [])
      ensures Frame(kind, data, lastEventId, retry) == Interpreted(lib, old(Frame(kind, data, lastEventId, retry)), [])
    {
      events := [];
      if data != [] || kind != [] || lastEventId != [] || retry.Some? {
        events := [Event(kind, JoinUpTo(data, |data|))];
      }
      kind, data, retry := [], [], None;
    }

    /** One byte: the event it completes, if any, or the line it ends that is not UTF-8. */
    method TakeByte(b: Byte) returns (events: seq<Event>, bad: Option<Bytes>)
      modifies this`line, this`kind, this`data, this`afterCr, this`lastEventId, this`retry
      ensures var s := ScanByte(lib, old(State()), b);
              && events == s.reading.events && bad == s.reading.bad
              && (bad.None? ==> State() == WithoutEvents(s))
    {
      events, bad := [], None;
      var wasCr := afterCr;
      afterCr := false;
      if wasCr && b == LF {
        return;
      }
      if b != LF && b != CR {
        line := line + [b];
        return;
      }
      afterCr := b == CR;
      var text := line;
      line := [];
      if !lib.isUtf8(text) {
        bad := Some(text);
      } else if text == [] {
        events := TakeFrame();
      } else if text[0] != COLON {
        TakeField(text);
      }
    }

    /**
     Decode one chunk. A line that is not UTF-8 ends the call: with an error if no
     event precedes it in the chunk, and otherwise with those events and the error
     set aside.
     */
    method Push(bytes: Bytes) returns (r: Result<seq<Event>, Bytes>)
      modifies this
      ensures var s := ScanAll(lib, old(State()), bytes);
              if s.reading.bad.None? then
                r == Ok(s.reading.events) && State() == WithoutEvents(s) && deferred == old(deferred)
              else if s.reading.events == [] then r == Err(s.reading.bad.value) && deferred == old(deferred)
              else r == Ok(s.reading.events) && deferred == s.reading.bad
    {
      ghost var start := State();
      var events: seq<Event> := [];
      var i := 0;
      while i < |bytes|
        invariant 0 <= i <= |bytes|
        invariant ScanUpTo(lib, start, bytes, i) == Behind(State(), events) && deferred == old(deferred)
      {
        BehindByte(lib, State(), events, bytes[i]);
        var more, bad := TakeByte(bytes[i]);
        events := events + more;
        i := i + 1;
        if bad.Some? {
          HaltedStays(lib, start, bytes, i, |bytes|);
          if events == [] {
            return Err(bad.value);
          }
          deferred := bad;
          return Ok(events);
        }
      }
      assert events + [] == events;
      return Ok(events);
    }

    /** The error set aside, once. */
    method TakeError() returns (error: Option<Bytes>)
      modifies this`deferred
      ensures error == old(deferred) && deferred == None
    {
      error := deferred;
      deferred := None;
    }

    /** The end of the stream: an unfinished line must be UTF-8, and is dropped. */
    method Finish() returns (r: Result<(), Bytes>)
      modifies this
      ensures r == if !lib.isUtf8(old(line)) then Err(old(line))
                   else if old(deferred).Some? then Err(old(deferred).value) else Ok(())
      ensures r.Ok? ==> State() == START && deferred == None
    {
      if !lib.isUtf8(line) {
        return Err(line);
      }
      var error := TakeError();
      if error.Some? {
        return Err(error.value);
      }
      line, kind, data, afterCr, lastEventId, retry := [], [], [], false, [], None;
      return Ok(());
    }
  }

  // ------------------------------------------------------------------- the caller

  /** The first `n` chunks as one byte string. */
  function Flat(chunks: seq<Bytes>, n: nat): Bytes
    requires n <= |chunks|
  {
    if n == 0 then [] else Flat(chunks, n - 1) + chunks[n - 1]
  }

  lemma {:induction false} FlatExtends(chunks: seq<Bytes>, m: nat, n: nat)
    requires m <= n <= |chunks|
    ensures Flat(chunks, m) <= Flat(chunks, n)
  {
    if m < n { FlatExtends(chunks, m, n - 1); }
  }

  lemma HaltedOutcome(lib: Library, chunks: seq<Bytes>, n: nat)
    requires n <= |chunks| && ScanAll(lib, START, Flat(chunks, n)).reading.bad.Some?
    ensures var s := ScanAll(lib, START, Flat(chunks, n));
            ScanOutcome(lib, Flat(chunks, |chunks|)) == Outcome(s.reading.events, s.reading.bad)
  {
    var part, whole := Flat(chunks, n), Flat(chunks, |chunks|);
    FlatExtends(chunks, n, |chunks|);
    ScanOfPrefix(lib, START, part, whole, |part|);
    HaltedStays(lib, START, whole, |part|, |whole|);
  }

  lemma NextChunk(lib: Library, chunks: seq<Bytes>, i: nat, state: Scan, events: seq<Event>)
    requires i < |chunks| && ScanAll(lib, START, Flat(chunks, i)) == Behind(state, events)
    ensures ScanAll(lib, START, Flat(chunks, i + 1)) == Behind(ScanAll(lib, state, chunks[i]), events)
  {
    ScanJoins(lib, START, Flat(chunks, i), chunks[i]);
    EventsStay(lib, state, events, chunks[i], |chunks[i]|);
  }

  /**
   Drive a decoder over a stream's chunks as a response stream does: hand out
   decoded events, then an error set aside, before the next chunk, and stop at the
   first error. The answer depends on the stream alone, not on its chunks: it is the
   events of its lines, whatever way they are told apart.
   */
  method Collect(lib: Library, chunks: seq<Bytes>) returns (outcome: Outcome)
    ensures outcome == ScanOutcome(lib, Flat(chunks, |chunks|))
    ensures forall lines, ends, rest :: IsSplit(Flat(chunks, |chunks|), lines, ends, rest) ==> IsOutcome(lib, lines, rest, outcome)
  {
    outcome := Drive(lib, chunks);
    forall lines, ends, rest | IsSplit(Flat(chunks, |chunks|), lines, ends, rest) ensures IsOutcome(lib, lines, rest, outcome) {
      ScanIsReadingLines(lib, Flat(chunks, |chunks|), lines, ends, rest);
      OutcomeIsExact(lib, lines, rest);
    }
  }

  /** The driving loop. */
  method Drive(lib: Library, chunks: seq<Bytes>) returns (outcome: Outcome)
    ensures outcome == ScanOutcome(lib, Flat(chunks, |chunks|))
  {
    var decoder := new Decoder(lib);
    var events: seq<Event> := [];
    var i := 0;
    while i < |chunks|
      invariant 0 <= i <= |chunks| && fresh(decoder) && decoder.lib == lib
      invariant decoder.deferred == None
      invariant ScanAll(lib, START, Flat(chunks, i)) == Behind(decoder.State(), events)
    {
      NextChunk(lib, chunks, i, decoder.State(), events);
      var pushed := decoder.Push(chunks[i]);
      i := i + 1;
      if pushed.Err? {
        HaltedOutcome(lib, chunks, i);
        return Outcome(events, Some(pushed.error));
      }
      events := events + pushed.value;
      var error := decoder.TakeError();
      if error.Some? {
        HaltedOutcome(lib, chunks, i);
        return Outcome(events, error);
      }
    }
    var finished := decoder.Finish();
    return Outcome(events, if finished.Err? then Some(finished.error) else None);
  }

  /**
   Two decoders driven over chunkings of the same bytes end with the same events and
   error: those of reading the lines of any split of those bytes.
   */
  method CollectTwice(lib: Library, a: seq<Bytes>, b: seq<Bytes>) returns (x: Outcome, y: Outcome)
    requires Flat(a, |a|) == Flat(b, |b|)
    ensures x == y
    ensures forall lines, ends, rest :: IsSplit(Flat(a, |a|), lines, ends, rest) ==> x == Closed(lib, ReadLines(lib, lines, |lines|), rest)
  {
    x := Collect(lib, a);
    y := Collect(lib, b);
    forall lines, ends, rest | IsSplit(Flat(a, |a|), lines, ends, rest) ensures x == Closed(lib, ReadLines(lib, lines, |lines|), rest) {
      ScanIsReadingLines(lib, Flat(a, |a|), lines, ends, rest);
    }
  }
}
