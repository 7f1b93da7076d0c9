/**
 The events of a stream in terms of its lines alone: the values of the lines since the
 last blank line, the last event identity of all lines, and when a blank line gives an
 event.
 */
module SseEvents {
  import opened Wrappers
  import opened SseDecoder

  /** The line gives the named field this value: what follows the first colon, less one space; or nothing. */
  ghost predicate Gives(line: Bytes, name: Bytes, value: Bytes) {
    && line != [] && line[0] != 58 && 58 !in name
    && (|| (line == name && value == [])
        || line == name + [58, 32] + value
        || (line == name + [58] + value && (value == [] || value[0] != 32)))
  }

  lemma {:induction false} ColonIsFirst(line: Bytes, i: nat)
    requires i <= |line|
    ensures COLON !in line[i..ColonFrom(line, i)] && (ColonFrom(line, i) < |line| ==> line[ColonFrom(line, i)] == COLON)
    decreases |line| - i
  {
    if i < |line| && line[i] != COLON {
      ColonIsFirst(line, i + 1);
      assert line[i..ColonFrom(line, i)] == [line[i]] + line[i + 1..ColonFrom(line, i)];
    }
  }

  lemma {:induction false} ColonIsAt(line: Bytes, i: nat, k: nat)
    requires i <= k <= |line| && COLON !in line[i..k] && (k < |line| ==> line[k] == COLON)
    ensures ColonFrom(line, i) == k
    decreases k - i
  {
    if i < k {
      assert line[i] in line[i..k];
      assert line[i + 1..k] == line[i..k][1..];
      ColonIsAt(line, i + 1, k);
    }
  }

  lemma SplitGives(line: Bytes, k: nat)
    requires line != [] && line[0] != COLON && k <= |line| && COLON !in line[..k] && (k < |line| ==> line[k] == COLON)
    ensures Gives(line, line[..k], ValueOf(line, k))
  {
    if k == |line| {
      assert line[..k] == line;
    } else if k + 1 < |line| && line[k + 1] == SPACE {
      assert line == line[..k] + [COLON, SPACE] + line[k + 2..];
    } else {
      assert line == line[..k] + [COLON] + line[k + 1..];
    }
  }

  /** A line that is neither blank nor a comment gives one value to one name. */
  lemma GivesExactly(line: Bytes, name: Bytes, value: Bytes)
    requires line != [] && line[0] != COLON
    ensures Gives(line, name, value) <==> name == line[..ColonFrom(line, 0)] && value == ValueOf(line, ColonFrom(line, 0))
  {
    var k := ColonFrom(line, 0);
    ColonIsFirst(line, 0);
    assert line[0..k] == line[..k];
    SplitGives(line, k);
    if Gives(line, name, value) {
      NameIsFound(line, name, value);
    }
  }

  lemma NameIsFound(line: Bytes, name: Bytes, value: Bytes)
    requires Gives(line, name, value)
    ensures name == line[..ColonFrom(line, 0)] && value == ValueOf(line, ColonFrom(line, 0))
  {
    assert line[0..|name|] == line[..|name|] == name;
    ColonIsAt(line, 0, |name|);
    if |name| < |line| && line == name + [COLON, SPACE] + value {
      assert line[|name| + 2..] == value;
    } else if |name| < |line| {
      assert line[|name| + 1..] == value;
    }
  }

  // ------------------------------------------------------------------ a group of lines

  ghost predicate IsSilent(line: Bytes, name: Bytes) {
    forall value :: !Gives(line, name, value)
  }

  /** The values the lines give the named field, in order. */
  ghost predicate AreValues(lines: seq<Bytes>, name: Bytes, values: seq<Bytes>) {
    if lines == [] then values == []
    else if values != [] && Gives(lines[|lines| - 1], name, values[|values| - 1])
    then AreValues(lines[..|lines| - 1], name, values[..|values| - 1])
    else IsSilent(lines[|lines| - 1], name) && AreValues(lines[..|lines| - 1], name, values)
  }

  /** The last value, or nothing. */
  function LastOf(values: seq<Bytes>): Bytes {
    if values == [] then [] else values[|values| - 1]
  }

  /** The last identity that holds no zero byte, or nothing. */
  function LastId(values: seq<Bytes>): Bytes {
    if values == [] then []
    else if 0 !in values[|values| - 1] then values[|values| - 1]
    else LastId(values[..|values| - 1])
  }

  /** The last value that is a retry time, if one is. */
  function LastRetry(lib: Library, values: seq<Bytes>): Option<int> {
    if values == [] then None
    else if lib.retry(values[|values| - 1]).Some? then lib.retry(values[|values| - 1])
    else LastRetry(lib, values[..|values| - 1])
  }

  /** The lines after the last blank one. */
  function Group(lines: seq<Bytes>): seq<Bytes> {
    if lines == [] || lines[|lines| - 1] == [] then [] else Group(lines[..|lines| - 1]) + [lines[|lines| - 1]]
  }

  /** What the lines have collected: kind, data and retry since the last blank line, and the identity since ever. */
  ghost predicate IsCollected(lib: Library, lines: seq<Bytes>, f: Frame) {
    && AreValues(Group(lines), [100, 97, 116, 97], f.data)
    && (exists kinds :: AreValues(Group(lines), [101, 118, 101, 110, 116], kinds) && f.kind == LastOf(kinds))
    && (exists ids :: AreValues(lines, [105, 100], ids) && f.lastEventId == LastId(ids))
    && (exists retries :: AreValues(Group(lines), [114, 101, 116, 114, 121], retries) && f.retry == LastRetry(lib, retries))
  }

  /** The data lines with single line feeds between them. */
  function Lined(data: seq<Bytes>): Bytes {
    if data == [] then [] else if |data| == 1 then data[0] else data[0] + [10] + Lined(data[1..])
  }

  /** The events of these lines: one for each blank line before which something was collected. */
  ghost predicate AreEvents(lib: Library, lines: seq<Bytes>, events: seq<Event>) {
    if lines == [] then events == []
    else if lines[|lines| - 1] == [] && exists f :: IsCollected(lib, lines[..|lines| - 1], f) && IsSet(f)
    then events != [] && IsEvent(lib, lines[..|lines| - 1], events[|events| - 1]) && AreEvents(lib, lines[..|lines| - 1], events[..|events| - 1])
    else AreEvents(lib, lines[..|lines| - 1], events)
  }

  predicate IsSet(f: Frame) {
    f.data != [] || f.kind != [] || f.lastEventId != [] || f.retry.Some?
  }

  /** The event of what these lines have collected. */
  ghost predicate IsEvent(lib: Library, lines: seq<Bytes>, event: Event) {
    exists f :: IsCollected(lib, lines, f) && event == Event(f.kind, Lined(f.data))
  }

  // ------------------------------------------------------------------------ the proofs

  /** The values of a field, line by line. */
  function ValuesOf(lines: seq<Bytes>, name: Bytes): seq<Bytes> {
    if lines == [] then [] else ValuesOf(lines[..|lines| - 1], name) + ValueIn(lines[|lines| - 1], name)
  }

  function ValueIn(line: Bytes, name: Bytes): seq<Bytes> {
    if line != [] && line[0] != COLON && line[..ColonFrom(line, 0)] == name then [ValueOf(line, ColonFrom(line, 0))] else []
  }

  lemma {:induction false} ValuesAre(lines: seq<Bytes>, name: Bytes)
    ensures AreValues(lines, name, ValuesOf(lines, name))
  {
    if lines != [] {
      var front, last := lines[..|lines| - 1], lines[|lines| - 1];
      ValuesAre(front, name);
      ValueIsGiven(last, name);
      var values := ValuesOf(lines, name);
      if ValueIn(last, name) != [] {
        assert values[..|values| - 1] == ValuesOf(front, name);
      } else {
        assert values == ValuesOf(front, name);
      }
    }
  }

  lemma ValueIsGiven(line: Bytes, name: Bytes)
    ensures if ValueIn(line, name) == [] then IsSilent(line, name) else Gives(line, name, ValueIn(line, name)[0])
  {
    if line != [] && line[0] != COLON {
      forall value ensures Gives(line, name, value) <==> name == line[..ColonFrom(line, 0)] && value == ValueOf(line, ColonFrom(line, 0)) {
        GivesExactly(line, name, value);
      }
    }
  }

  lemma {:induction false} ValuesAreUnique(lines: seq<Bytes>, name: Bytes, values: seq<Bytes>)
    requires AreValues(lines, name, values)
    ensures values == ValuesOf(lines, name)
  {
    if lines != [] {
      var front, last := lines[..|lines| - 1], lines[|lines| - 1];
      ValueIsGiven(last, name);
      if values != [] && Gives(last, name, values[|values| - 1]) {
        NameIsFound(last, name, values[|values| - 1]);
        ValuesAreUnique(front, name, values[..|values| - 1]);
        assert values == values[..|values| - 1] + [values[|values| - 1]];
      } else {
        ValuesAreUnique(front, name, values);
      }
    }
  }

  /** What the lines have collected, line by line. */
  function Collected(lib: Library, lines: seq<Bytes>): Frame {
    Frame(LastOf(ValuesOf(Group(lines), EVENT_NAME)), ValuesOf(Group(lines), DATA_NAME), LastId(ValuesOf(lines, ID_NAME)),
          LastRetry(lib, ValuesOf(Group(lines), RETRY_NAME)))
  }

  lemma CollectedExactly(lib: Library, lines: seq<Bytes>, f: Frame)
    ensures IsCollected(lib, lines, f) <==> f == Collected(lib, lines)
  {
    var group := Group(lines);
    ValuesAre(group, EVENT_NAME);
    ValuesAre(group, DATA_NAME);
    ValuesAre(lines, ID_NAME);
    ValuesAre(group, RETRY_NAME);
    if IsCollected(lib, lines, f) {
      ValuesAreUnique(group, DATA_NAME, f.data);
      var kinds :| AreValues(group, EVENT_NAME, kinds) && f.kind == LastOf(kinds);
      ValuesAreUnique(group, EVENT_NAME, kinds);
      var ids :| AreValues(lines, ID_NAME, ids) && f.lastEventId == LastId(ids);
      ValuesAreUnique(lines, ID_NAME, ids);
      var retries :| AreValues(group, RETRY_NAME, retries) && f.retry == LastRetry(lib, retries);
      ValuesAreUnique(group, RETRY_NAME, retries);
    }
  }

  lemma ValuesGrow(lines: seq<Bytes>, line: Bytes, name: Bytes)
    ensures ValuesOf(lines + [line], name)
            == if ValueIn(line, name) == [] then ValuesOf(lines, name) else ValuesOf(lines, name) + [ValueIn(line, name)[0]]
  {
    assert (lines + [line])[..|lines|] == lines;
    assert ValuesOf(lines, name) + [] == ValuesOf(lines, name);
  }

  lemma LastGrows(lib: Library, values: seq<Bytes>, value: Bytes)
    ensures LastOf(values + [value]) == value
    ensures LastId(values + [value]) == if NUL in value then LastId(values) else value
    ensures LastRetry(lib, values + [value]) == if lib.retry(value).Some? then lib.retry(value) else LastRetry(lib, values)
  {
    assert (values + [value])[..|values|] == values;
  }

  lemma GroupGrows(lines: seq<Bytes>, line: Bytes)
    ensures Group(lines + [line]) == if line == [] then [] else Group(lines) + [line]
  {
    assert (lines + [line])[..|lines|] == lines;
  }

  /** What a line gives is the value of one field. */
  lemma OneFieldGrows(lib: Library, f: Frame, line: Bytes)
    requires line != []
    ensures var g := Interpreted(lib, f, line);
            && g.data == (if ValueIn(line, DATA_NAME) == [] then f.data else f.data + [ValueIn(line, DATA_NAME)[0]])
            && g.kind == (if ValueIn(line, EVENT_NAME) == [] then f.kind else ValueIn(line, EVENT_NAME)[0])
            && g.lastEventId == (if ValueIn(line, ID_NAME) == [] || NUL in ValueIn(line, ID_NAME)[0] then f.lastEventId else ValueIn(line, ID_NAME)[0])
            && g.retry == (if ValueIn(line, RETRY_NAME) == [] || lib.retry(ValueIn(line, RETRY_NAME)[0]).None? then f.retry
                           else lib.retry(ValueIn(line, RETRY_NAME)[0]))
  {
    NamesDiffer();
  }

  /** One more line collects what the decoder's frame collects of it. */
  lemma CollectedGrows(lib: Library, lines: seq<Bytes>, line: Bytes)
    ensures Collected(lib, lines + [line]) == Interpreted(lib, Collected(lib, lines), line)
  {
    GroupGrows(lines, line);
    ValuesGrow(lines, line, ID_NAME);
    if line != [] {
      FieldGrows(lib, lines, line, EVENT_NAME);
      FieldGrows(lib, lines, line, DATA_NAME);
      FieldGrows(lib, lines, line, RETRY_NAME);
      if ValueIn(line, ID_NAME) != [] { LastGrows(lib, ValuesOf(lines, ID_NAME), ValueIn(line, ID_NAME)[0]); }
      OneFieldGrows(lib, Collected(lib, lines), line);
    }
  }

  lemma FieldGrows(lib: Library, lines: seq<Bytes>, line: Bytes, name: Bytes)
    requires line != []
    ensures var before, value := ValuesOf(Group(lines), name), ValueIn(line, name);
            var now := ValuesOf(Group(lines + [line]), name);
            && now == (if value == [] then before else before + [value[0]])
            && LastOf(now) == (if value == [] then LastOf(before) else value[0])
            && LastRetry(lib, now) == (if value == [] || lib.retry(value[0]).None? then LastRetry(lib, before) else lib.retry(value[0]))
  {
    GroupGrows(lines, line);
    ValuesGrow(Group(lines), line, name);
    if ValueIn(line, name) != [] { LastGrows(lib, ValuesOf(Group(lines), name), ValueIn(line, name)[0]); }
  }

  lemma NamesDiffer()
    ensures EVENT_NAME != DATA_NAME && EVENT_NAME != ID_NAME && EVENT_NAME != RETRY_NAME
    ensures DATA_NAME != ID_NAME && DATA_NAME != RETRY_NAME && ID_NAME != RETRY_NAME
  {
    assert |ID_NAME| == 2 && |DATA_NAME| == 4 && |EVENT_NAME| == |RETRY_NAME| == 5 && EVENT_NAME[0] != RETRY_NAME[0];
  }

  lemma CollectedStep(lib: Library, lines: seq<Bytes>, n: nat)
    requires 0 < n <= |lines|
    ensures Collected(lib, lines[..n]) == Interpreted(lib, Collected(lib, lines[..n - 1]), lines[n - 1])
  {
    assert lines[..n] == lines[..n - 1] + [lines[n - 1]];
    CollectedGrows(lib, lines[..n - 1], lines[n - 1]);
  }

  lemma ReadStep(lib: Library, lines: seq<Bytes>, n: nat)
    requires 0 < n <= |lines| && ReadLines(lib, lines, n).bad.None?
    ensures var earlier := ReadLines(lib, lines, n - 1);
            && earlier.bad.None?
            && ReadLines(lib, lines, n).frame == Interpreted(lib, earlier.frame, lines[n - 1])
            && ReadLines(lib, lines, n).events == earlier.events + Emitted(earlier.frame, lines[n - 1])
  {
  }

  lemma {:induction false} FrameIsCollected(lib: Library, lines: seq<Bytes>, n: nat)
    requires n <= |lines| && ReadLines(lib, lines, n).bad.None?
    ensures ReadLines(lib, lines, n).frame == Collected(lib, lines[..n])
  {
    if n == 0 {
      NothingIsCollected(lib, lines);
    } else {
      ReadStep(lib, lines, n);
      FrameIsCollected(lib, lines, n - 1);
      CollectedStep(lib, lines, n);
    }
  }

  lemma NothingIsCollected(lib: Library, lines: seq<Bytes>)
    ensures Collected(lib, lines[..0]) == ReadLines(lib, lines, 0).frame
  {
    assert lines[..0] == [];
  }

  lemma {:induction false} LinedIsJoined(data: seq<Bytes>, k: nat)
    requires k <= |data|
    ensures Lined(data[..k]) == JoinUpTo(data, k)
  {
    if k > 1 {
      LinedIsJoined(data, k - 1);
      assert data[..k] == data[..k - 1] + [data[k - 1]];
      LinedExtends(data[..k - 1], data[k - 1]);
    }
  }

  lemma {:induction false} LinedExtends(data: seq<Bytes>, last: Bytes)
    requires data != []
    ensures Lined(data + [last]) == Lined(data) + [10] + last
  {
    if |data| == 1 {
      assert (data + [last])[1..] == [last];
    } else {
      assert (data + [last])[1..] == data[1..] + [last];
      LinedExtends(data[1..], last);
    }
  }

  // ---------------------------------------------------------------------- main result

  /** A blank line gives an event exactly when something is collected, and then that event. */
  lemma BlankGives(lib: Library, lines: seq<Bytes>, f: Frame)
    requires f == Collected(lib, lines)
    ensures (exists g :: IsCollected(lib, lines, g) && IsSet(g)) <==> Emits(f)
    ensures IsEvent(lib, lines, Event(f.kind, JoinUpTo(f.data, |f.data|)))
  {
    CollectedExactly(lib, lines, f);
    if g :| IsCollected(lib, lines, g) && IsSet(g) { CollectedExactly(lib, lines, g); }
    LinedIsJoined(f.data, |f.data|);
    assert f.data[..|f.data|] == f.data;
  }

  lemma EventsGrow(lib: Library, lines: seq<Bytes>, line: Bytes, events: seq<Event>)
    requires AreEvents(lib, lines, events)
    ensures AreEvents(lib, lines + [line], events + Emitted(Collected(lib, lines), line))
  {
    var more, f := lines + [line], Collected(lib, lines);
    assert more[..|more| - 1] == lines && more[|more| - 1] == line;
    BlankGives(lib, lines, f);
    if line == [] && Emits(f) {
      var event := Event(f.kind, JoinUpTo(f.data, |f.data|));
      assert (events + [event])[..|events|] == events;
    } else {
      assert events + [] == events;
    }
  }

  lemma EventsStep(lib: Library, lines: seq<Bytes>, n: nat, events: seq<Event>)
    requires 0 < n <= |lines| && AreEvents(lib, lines[..n - 1], events)
    ensures AreEvents(lib, lines[..n], events + Emitted(Collected(lib, lines[..n - 1]), lines[n - 1]))
  {
    assert lines[..n] == lines[..n - 1] + [lines[n - 1]];
    EventsGrow(lib, lines[..n - 1], lines[n - 1], events);
  }

  /** The events read of lines that are all UTF-8 are those of the lines. */
  lemma {:induction false} EventsAreExact(lib: Library, lines: seq<Bytes>, n: nat)
    requires n <= |lines| && ReadLines(lib, lines, n).bad.None?
    ensures AreEvents(lib, lines[..n], ReadLines(lib, lines, n).events)
  {
    if n > 0 {
      ReadStep(lib, lines, n);
      EventsAreExact(lib, lines, n - 1);
      FrameIsCollected(lib, lines, n - 1);
      EventsStep(lib, lines, n, ReadLines(lib, lines, n - 1).events);
    }
  }

  /** The events of the lines before the first that is not UTF-8, and that line or else a rest that is not. */
  ghost predicate IsOutcome(lib: Library, lines: seq<Bytes>, rest: Bytes, o: Outcome) {
    if forall k :: 0 <= k < |lines| ==> lib.isUtf8(lines[k])
    then AreEvents(lib, lines, o.events) && o.error == if lib.isUtf8(rest) then None else Some(rest)
    else exists k :: 0 <= k < |lines| && IsFirstBad(lib, lines, k) && AreEvents(lib, lines[..k], o.events) && o.error == Some(lines[k])
  }

  predicate IsFirstBad(lib: Library, lines: seq<Bytes>, k: nat)
    requires k < |lines|
  {
    !lib.isUtf8(lines[k]) && forall j :: 0 <= j < k ==> lib.isUtf8(lines[j])
  }

  /** Reading stops at the first line that is not UTF-8. */
  lemma {:induction false} ReadingStops(lib: Library, lines: seq<Bytes>, n: nat) returns (k: nat)
    requires n <= |lines|
    ensures ReadLines(lib, lines, n).bad.None? ==> forall j :: 0 <= j < n ==> lib.isUtf8(lines[j])
    ensures ReadLines(lib, lines, n).bad.Some? ==>
              && k < n && IsFirstBad(lib, lines, k) && ReadLines(lib, lines, k).bad.None?
              && ReadLines(lib, lines, n) == ReadLines(lib, lines, k).(bad := Some(lines[k]))
  {
    k := 0;
    if n > 0 {
      k := ReadingStops(lib, lines, n - 1);
      if ReadLines(lib, lines, n - 1).bad.None? { k := n - 1; }
    }
  }

  /** The outcome of a stream is that of its lines. */
  lemma OutcomeIsExact(lib: Library, lines: seq<Bytes>, rest: Bytes)
    ensures IsOutcome(lib, lines, rest, Closed(lib, ReadLines(lib, lines, |lines|), rest))
  {
    var r := ReadLines(lib, lines, |lines|);
    var k := ReadingStops(lib, lines, |lines|);
    assert lines[..|lines|] == lines;
    EventsAreExact(lib, lines, if r.bad.None? then |lines| else k);
  }
}
