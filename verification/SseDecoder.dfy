/**
 Incremental framing of a server-sent event stream. The decoder works byte by
 byte over arbitrary chunks; it is proved against splitting the whole input into
 lines and interpreting them one after the other.
 */
module SseDecoder {
  import opened Wrappers

  type Byte = x: int | 0 <= x < 256
  type Bytes = seq<Byte>

  const LF: Byte := 10
  const CR: Byte := 13
  const COLON: Byte := 58
  const SPACE: Byte := 32
  const NUL: Byte := 0

  datatype Event = Event(kind: Bytes, data: Bytes)

  /** The fields of an event stream line. */
  datatype Field = EventField | DataField | IdField | RetryField | OtherField

  /** The fields' names in ASCII. */
  const EVENT_NAME: Bytes := [101, 118, 101, 110, 116]
  const DATA_NAME: Bytes := [100, 97, 116, 97]
  const ID_NAME: Bytes := [105, 100]
  const RETRY_NAME: Bytes := [114, 101, 116, 114, 121]

  function FieldOf(name: Bytes): Field {
    if name == EVENT_NAME then EventField
    else if name == DATA_NAME then DataField
    else if name == ID_NAME then IdField
    else if name == RETRY_NAME then RetryField
    else OtherField
  }

  /**
   What framing takes from its environment: which byte strings are UTF-8, and which
   integer a retry value parses to, if any.
   */
  datatype Library = Library(isUtf8: Bytes -> bool, retry: Bytes -> Option<int>)

  /** The fields collected since the last blank line, and the id that outlives it. */
  datatype Frame = Frame(kind: Bytes, data: seq<Bytes>, lastEventId: Bytes, retry: Option<int>)

  // ------------------------------------------------------------ interpreting lines

  /** The first `k` data lines joined by line feeds. */
  function JoinUpTo(data: seq<Bytes>, k: nat): Bytes
    requires k <= |data|
  {
    if k == 0 then [] else if k == 1 then data[0] else JoinUpTo(data, k - 1) + [LF] + data[k - 1]
  }

  /** The first colon at or after `i`, or the end of the line. */
  function ColonFrom(line: Bytes, i: nat): (k: nat)
    requires i <= |line|
    ensures i <= k <= |line|
    decreases |line| - i
  {
    if i == |line| || line[i] == COLON then i else ColonFrom(line, i + 1)
  }

  function ValueOf(line: Bytes, colon: nat): Bytes
    requires colon <= |line|
  {
    if colon == |line| then []
    else if colon + 1 < |line| && line[colon + 1] == SPACE then line[colon + 2..]
    else line[colon + 1..]
  }

  /** The frame after one nonblank line. */
  function WithField(lib: Library, frame: Frame, line: Bytes): Frame {
    var colon := ColonFrom(line, 0);
    var value := ValueOf(line, colon);
    match FieldOf(line[..colon])
    case EventField => frame.(kind := value)
    case DataField => frame.(data := frame.data + [value])
    case IdField => if NUL in value then frame else frame.(lastEventId := value)
    case RetryField => if lib.retry(value).Some? then frame.(retry := lib.retry(value)) else frame
    case OtherField => frame
  }

  /** A blank line emits an event unless nothing at all was collected; the id stays. */
  predicate Emits(frame: Frame) {
    frame.data != [] || frame.kind != [] || frame.lastEventId != [] || frame.retry.Some?
  }

  function Interpreted(lib: Library, frame: Frame, line: Bytes): Frame {
    if line == [] then Frame([], [], frame.lastEventId, None)
    else if line[0] == COLON then frame
    else WithField(lib, frame, line)
  }

  function Emitted(frame: Frame, line: Bytes): seq<Event> {
    if line == [] && Emits(frame) then [Event(frame.kind, JoinUpTo(frame.data, |frame.data|))] else []
  }

  const NO_FRAME := Frame([], [], [], None)

  /** What lines amount to: the frame left open, the events, and the first line that is not UTF-8. */
  datatype Reading = Reading(frame: Frame, events: seq<Event>, bad: Option<Bytes>)

  /** Reading one more line; nothing is read after a line that is not UTF-8. */
  function ReadLine(lib: Library, r: Reading, line: Bytes): Reading {
    if r.bad.Some? then r
    else if !lib.isUtf8(line) then r.(bad := Some(line))
    else Reading(Interpreted(lib, r.frame, line), r.events + Emitted(r.frame, line), None)
  }

  function ReadLines(lib: Library, lines: seq<Bytes>, k: nat): Reading
    requires k <= |lines|
  {
    if k == 0 then Reading(NO_FRAME, [], None) else ReadLine(lib, ReadLines(lib, lines, k - 1), lines[k - 1])
  }

  // ----------------------------------------------- dispatching only with data

  /** Line `k` is read as a blank line. */
  predicate IsBlankRead(lib: Library, lines: seq<Bytes>, k: int)
  {
    0 <= k < |lines| && lines[k] == [] && lib.isUtf8([]) && ReadLines(lib, lines, k).bad.None?
  }

  /** The events of the rule that a blank line dispatches exactly when data was collected. */
  function DataEvents(lib: Library, lines: seq<Bytes>, n: nat): seq<Event>
    requires n <= |lines|
  {
    if n == 0 then []
    else
      var frame := ReadLines(lib, lines, n - 1).frame;
      DataEvents(lib, lines, n - 1)
      + if IsBlankRead(lib, lines, n - 1) && frame.data != [] then [Event(frame.kind, JoinUpTo(frame.data, |frame.data|))] else []
  }

  /** A blank line read without data while a kind, an id or a retry is set. */
  predicate IsStray(lib: Library, lines: seq<Bytes>, k: int) {
    && IsBlankRead(lib, lines, k)
    && ReadLines(lib, lines, k).frame.data == []
    && Emits(ReadLines(lib, lines, k).frame)
  }

  function StraysUpTo(lib: Library, lines: seq<Bytes>, n: nat): nat
    requires n <= |lines|
  {
    if n == 0 then 0 else StraysUpTo(lib, lines, n - 1) + if IsStray(lib, lines, n - 1) then 1 else 0
  }

  /** The decoder gives one event more for every stray blank line, and otherwise the same events. */
  lemma {:induction false} StraysAreExtra(lib: Library, lines: seq<Bytes>, n: nat)
    requires n <= |lines|
    ensures |ReadLines(lib, lines, n).events| == |DataEvents(lib, lines, n)| + StraysUpTo(lib, lines, n)
    ensures StraysUpTo(lib, lines, n) == 0 ==> ReadLines(lib, lines, n).events == DataEvents(lib, lines, n)
    ensures StraysUpTo(lib, lines, n) == 0 <==> forall k :: 0 <= k < n ==> !IsStray(lib, lines, k)
  {
    if n > 0 { StraysAreExtra(lib, lines, n - 1); }
  }

  /**
   The decoder's events are those of dispatching only with data exactly when no blank
   line is read without data while a kind, an id or a retry is set.
   */
  lemma SameExactlyWithoutStrays(lib: Library, lines: seq<Bytes>)
    ensures ReadLines(lib, lines, |lines|).events == DataEvents(lib, lines, |lines|)
            <==> forall k :: 0 <= k < |lines| ==> !IsStray(lib, lines, k)
  {
    StraysAreExtra(lib, lines, |lines|);
  }

  const ID_LINE: Bytes := [105, 100, COLON, 49]

  /** An id and two blank lines: two events without data, where the other rule gives none. */
  lemma IdAloneEmits(lib: Library)
    requires lib.isUtf8(ID_LINE) && lib.isUtf8([])
    ensures var lines := [ID_LINE, [], []];
            ReadLines(lib, lines, 3).events == [Event([], []), Event([], [])] && DataEvents(lib, lines, 3) == []
  {
    var lines: seq<Bytes> := [ID_LINE, [], []];
    assert ColonFrom(ID_LINE, 2) == 2;
    assert ColonFrom(ID_LINE, 1) == 2;
    assert ColonFrom(ID_LINE, 0) == 2;
    assert ID_LINE[..2] == ID_NAME && ID_LINE[3..] == [49];
    assert ReadLines(lib, lines, 0) == Reading(NO_FRAME, [], None);
    assert ReadLines(lib, lines, 1) == Reading(Frame([], [], [49], None), [], None);
    assert ReadLines(lib, lines, 2) == Reading(Frame([], [], [49], None), [Event([], [])], None);
    assert DataEvents(lib, lines, 0) == [];
    assert DataEvents(lib, lines, 1) == [];
    assert DataEvents(lib, lines, 2) == [];
    assert DataEvents(lib, lines, 3) == [];
  }

  /** The answer for a whole stream: its events, then an error if a line or the unfinished rest is not UTF-8. */
  datatype Outcome = Outcome(events: seq<Event>, error: Option<Bytes>)

  function Closed(lib: Library, r: Reading, rest: Bytes): Outcome {
    Outcome(r.events, if r.bad.Some? then r.bad else if lib.isUtf8(rest) then None else Some(rest))
  }

  // ----------------------------------------------------------------- byte by byte

  /** The reading so far, the unfinished line, and whether the last byte was a carriage return. */
  datatype Scan = Scan(reading: Reading, line: Bytes, afterCr: bool)

  const START := Scan(Reading(NO_FRAME, [], None), [], false)

  function ScanByte(lib: Library, s: Scan, b: Byte): Scan {
    if s.reading.bad.Some? then s
    else if s.afterCr && b == LF then s.(afterCr := false)
    else if b != LF && b != CR then Scan(s.reading, s.line + [b], false)
    else Scan(ReadLine(lib, s.reading, s.line), [], b == CR)
  }

  function ScanUpTo(lib: Library, s: Scan, bytes: Bytes, n: nat): Scan
    requires n <= |bytes|
  {
    if n == 0 then s else ScanByte(lib, ScanUpTo(lib, s, bytes, n - 1), bytes[n - 1])
  }

  function ScanAll(lib: Library, s: Scan, bytes: Bytes): Scan {
    ScanUpTo(lib, s, bytes, |bytes|)
  }

  lemma {:induction false} ScanOfPrefix(lib: Library, s: Scan, bytes: Bytes, longer: Bytes, n: nat)
    requires bytes <= longer && n <= |bytes|
    ensures ScanUpTo(lib, s, longer, n) == ScanUpTo(lib, s, bytes, n)
  {
    if n > 0 { ScanOfPrefix(lib, s, bytes, longer, n - 1); }
  }

  lemma {:induction false} ScanOfRest(lib: Library, s: Scan, a: Bytes, b: Bytes, n: nat)
    requires n <= |b|
    ensures ScanUpTo(lib, s, a + b, |a| + n) == ScanUpTo(lib, ScanAll(lib, s, a), b, n)
  {
    if n == 0 {
      ScanOfPrefix(lib, s, a, a + b, |a|);
    } else {
      ScanOfRest(lib, s, a, b, n - 1);
      assert (a + b)[|a| + n - 1] == b[n - 1];
    }
  }

  /** Scanning two pieces one after the other is scanning them together. */
  lemma ScanJoins(lib: Library, s: Scan, a: Bytes, b: Bytes)
    ensures ScanAll(lib, s, a + b) == ScanAll(lib, ScanAll(lib, s, a), b)
  {
    ScanOfRest(lib, s, a, b, |b|);
  }

  lemma {:induction false} HaltedStays(lib: Library, s: Scan, bytes: Bytes, m: nat, n: nat)
    requires m <= n <= |bytes| && ScanUpTo(lib, s, bytes, m).reading.bad.Some?
    ensures ScanUpTo(lib, s, bytes, n) == ScanUpTo(lib, s, bytes, m)
  {
    if m < n { HaltedStays(lib, s, bytes, m, n - 1); }
  }

  /** Earlier events do not influence a scan; they stay in front. */
  function Behind(s: Scan, events: seq<Event>): Scan {
    s.(reading := s.reading.(events := events + s.reading.events))
  }

  function WithoutEvents(s: Scan): Scan {
    s.(reading := s.reading.(events := []))
  }

  lemma BehindByte(lib: Library, s: Scan, events: seq<Event>, b: Byte)
    ensures ScanByte(lib, Behind(s, events), b) == Behind(ScanByte(lib, s, b), events)
    ensures Behind(WithoutEvents(ScanByte(lib, s, b)), events + ScanByte(lib, s, b).reading.events)
            == Behind(ScanByte(lib, s, b), events)
  {
    assert events + (s.reading.events + Emitted(s.reading.frame, s.line))
        == (events + s.reading.events) + Emitted(s.reading.frame, s.line);
    assert (events + ScanByte(lib, s, b).reading.events) + [] == events + ScanByte(lib, s, b).reading.events;
  }

  lemma {:induction false} EventsStay(lib: Library, s: Scan, events: seq<Event>, bytes: Bytes, n: nat)
    requires n <= |bytes|
    ensures ScanUpTo(lib, Behind(s, events), bytes, n) == Behind(ScanUpTo(lib, s, bytes, n), events)
  {
    if n > 0 {
      EventsStay(lib, s, events, bytes, n - 1);
      BehindByte(lib, ScanUpTo(lib, s, bytes, n - 1), events, bytes[n - 1]);
    }
  }

  /** The answer of the byte-by-byte scan for a whole stream. */
  function ScanOutcome(lib: Library, input: Bytes): Outcome {
    var s := ScanAll(lib, START, input);
    Closed(lib, s.reading, s.line)
  }

  // ------------------------------------------------------------ splitting into lines

  datatype End = Lf | Cr | CrLf

  function EndBytes(e: End): Bytes {
    match e
    case Lf => [10]
    case Cr => [13]
    case CrLf => [13, 10]
  }

  predicate EndFree(line: Bytes) {
    10 !in line && 13 !in line
  }

  /** The first `k` lines put back together with their ends. */
  function Reassembled(lines: seq<Bytes>, ends: seq<End>, k: nat): Bytes
    requires k <= |lines| && k <= |ends|
  {
    if k == 0 then [] else Reassembled(lines, ends, k - 1) + lines[k - 1] + EndBytes(ends[k - 1])
  }

  /** The input is these lines, each with its end, and an unfinished rest; a return takes a feed that follows it. */
  ghost predicate IsSplit(input: Bytes, lines: seq<Bytes>, ends: seq<End>, rest: Bytes) {
    && |lines| == |ends| && EndFree(rest)
    && (forall i :: 0 <= i < |lines| ==> EndFree(lines[i]))
    && (forall i :: 0 < i < |lines| ==> !(ends[i - 1].Cr? && lines[i] == [] && ends[i].Lf?))
    && input == Reassembled(lines, ends, |lines|) + rest
  }

  lemma {:induction false} ScanPlain(lib: Library, s: Scan, line: Bytes, n: nat)
    requires n <= |line| && EndFree(line) && s.reading.bad.None? && s.line == []
    ensures ScanUpTo(lib, s, line, n) == Scan(s.reading, line[..n], n == 0 && s.afterCr)
  {
    if n > 0 {
      ScanPlain(lib, s, line, n - 1);
      assert line[n - 1] in line;
      assert line[..n] == line[..n - 1] + [line[n - 1]];
    }
  }

  lemma {:induction false} ScanHalted(lib: Library, s: Scan, bytes: Bytes, n: nat)
    requires n <= |bytes| && s.reading.bad.Some?
    ensures ScanUpTo(lib, s, bytes, n) == s
  {
    if n > 0 { ScanHalted(lib, s, bytes, n - 1); }
  }

  lemma ScanEnd(lib: Library, s: Scan, e: End)
    requires s.reading.bad.None? && !(s.afterCr && e.Lf?)
    ensures var t := ScanAll(lib, s, EndBytes(e));
            && t.reading == ReadLine(lib, s.reading, s.line)
            && (t.reading.bad.None? ==> t.line == [] && t.afterCr == e.Cr?)
  {
    var bytes := EndBytes(e);
    assert ScanUpTo(lib, s, bytes, 1) == ScanByte(lib, s, bytes[0]);
    if e.CrLf? {
      assert ScanUpTo(lib, s, bytes, 2) == ScanByte(lib, ScanUpTo(lib, s, bytes, 1), bytes[1]);
    }
  }

  lemma {:induction false} ScanLines(lib: Library, input: Bytes, lines: seq<Bytes>, ends: seq<End>, rest: Bytes, k: nat)
    requires IsSplit(input, lines, ends, rest) && k <= |lines|
    ensures var s := ScanAll(lib, START, Reassembled(lines, ends, k));
            && s.reading == ReadLines(lib, lines, k)
            && (s.reading.bad.None? ==> s.line == [] && s.afterCr == (k > 0 && ends[k - 1].Cr?))
  {
    if k > 0 {
      ScanLines(lib, input, lines, ends, rest, k - 1);
      var before := Reassembled(lines, ends, k - 1);
      var s := ScanAll(lib, START, before);
      ScanJoins(lib, START, before, lines[k - 1]);
      ScanJoins(lib, START, before + lines[k - 1], EndBytes(ends[k - 1]));
      if s.reading.bad.Some? {
        ScanHalted(lib, s, lines[k - 1], |lines[k - 1]|);
        ScanHalted(lib, s, EndBytes(ends[k - 1]), |EndBytes(ends[k - 1])|);
      } else {
        ScanPlain(lib, s, lines[k - 1], |lines[k - 1]|);
        assert lines[k - 1][..|lines[k - 1]|] == lines[k - 1];
        ScanEnd(lib, ScanAll(lib, s, lines[k - 1]), ends[k - 1]);
      }
    }
  }

  /** Scanning is reading the lines of the split input, whatever split is taken. */
  lemma ScanIsReadingLines(lib: Library, input: Bytes, lines: seq<Bytes>, ends: seq<End>, rest: Bytes)
    requires IsSplit(input, lines, ends, rest)
    ensures ScanOutcome(lib, input) == Closed(lib, ReadLines(lib, lines, |lines|), rest)
  {
    ScanLines(lib, input, lines, ends, rest, |lines|);
    var all := Reassembled(lines, ends, |lines|);
    var s := ScanAll(lib, START, all);
    ScanJoins(lib, START, all, rest);
    if s.reading.bad.Some? {
      ScanHalted(lib, s, rest, |rest|);
    } else {
      ScanPlain(lib, s, rest, |rest|);
      assert rest[..|rest|] == rest;
    }
  }

  lemma {:induction false} ReassembledOfPrefix(lines: seq<Bytes>, more: seq<Bytes>, ends: seq<End>, longer: seq<End>, k: nat)
    requires k <= |lines| && k <= |ends| && k <= |more| && k <= |longer|
    requires lines[..k] == more[..k] && ends[..k] == longer[..k]
    ensures Reassembled(lines, ends, k) == Reassembled(more, longer, k)
  {
    if k > 0 {
      assert lines[k - 1] == lines[..k][k - 1] == more[k - 1];
      assert ends[k - 1] == ends[..k][k - 1] == longer[k - 1];
      assert lines[..k - 1] == lines[..k][..k - 1] && more[..k - 1] == more[..k][..k - 1];
      assert ends[..k - 1] == ends[..k][..k - 1] && longer[..k - 1] == longer[..k][..k - 1];
      ReassembledOfPrefix(lines, more, ends, longer, k - 1);
    }
  }

  /** The last return takes a feed that follows it. */
  lemma SplitTakesFeed(input: Bytes, lines: seq<Bytes>, ends: seq<End>)
    requires IsSplit(input, lines, ends, []) && lines != [] && ends[|ends| - 1].Cr?
    ensures IsSplit(input + [LF], lines, ends[|ends| - 1 := CrLf], [])
  {
    var k := |lines| - 1;
    var longer := ends[k := CrLf];
    ReassembledOfPrefix(lines, lines, ends, longer, k);
    assert Reassembled(lines, longer, k + 1) == Reassembled(lines, ends, k) + lines[k] + [CR, LF];
    assert input + [LF] == Reassembled(lines, longer, k + 1) + [];
  }

  /** The rest becomes a line. */
  lemma SplitEndsLine(input: Bytes, lines: seq<Bytes>, ends: seq<End>, rest: Bytes, e: End)
    requires IsSplit(input, lines, ends, rest) && !e.CrLf?
    requires e.Lf? && rest == [] && lines != [] ==> !ends[|ends| - 1].Cr?
    ensures IsSplit(input + EndBytes(e), lines + [rest], ends + [e], [])
  {
    var k := |lines|;
    ReassembledOfPrefix(lines, lines + [rest], ends, ends + [e], k);
    assert Reassembled(lines + [rest], ends + [e], k + 1) == Reassembled(lines, ends, k) + rest + EndBytes(e);
  }

  /** The split of the input with one more byte. */
  lemma SplitGrows(input: Bytes, lines: seq<Bytes>, ends: seq<End>, rest: Bytes, b: Byte)
    returns (more: seq<Bytes>, longer: seq<End>, left: Bytes)
    requires IsSplit(input, lines, ends, rest)
    ensures IsSplit(input + [b], more, longer, left)
  {
    if b != LF && b != CR {
      more, longer, left := lines, ends, rest + [b];
    } else if b == LF && rest == [] && lines != [] && ends[|ends| - 1].Cr? {
      SplitTakesFeed(input, lines, ends);
      more, longer, left := lines, ends[|ends| - 1 := CrLf], [];
    } else {
      var e := if b == LF then Lf else Cr;
      SplitEndsLine(input, lines, ends, rest, e);
      more, longer, left := lines + [rest], ends + [e], [];
    }
  }

  /** Every input has a split. */
  lemma {:induction false} SplitExists(input: Bytes) returns (lines: seq<Bytes>, ends: seq<End>, rest: Bytes)
    ensures IsSplit(input, lines, ends, rest)
  {
    if input == [] {
      lines, ends, rest := [], [], [];
    } else {
      var n := |input| - 1;
      lines, ends, rest := SplitExists(input[..n]);
      lines, ends, rest := SplitGrows(input[..n], lines, ends, rest, input[n]);
      assert input == input[..n] + [input[n]];
    }
  }
}
