/**
 The atomic coordination journal: compare-and-append batches with exact retries
 and exactly resolved causes, kept in three maps that must agree.
 */
module FactJournal {
  import opened Wrappers
  import opened FactTypes

  /**
   The journal's state. `history` lists the records in commit order; it is kept
   for the statements about causality and no operation's answer depends on it.
   */
  datatype Journal = Journal(
    streams: map<Name, seq<FactRecord>>,
    identities: map<Name, FactRecord>,
    batches: map<(Name, nat), seq<FactRecord>>,
    history: seq<FactRecord>)

  const EMPTY := Journal(map[], map[], map[], [])

  function Rows(j: Journal, stream: Name): seq<FactRecord> {
    if stream in j.streams then j.streams[stream] else []
  }

  function Head(rows: seq<FactRecord>): nat {
    if rows == [] then 0 else rows[|rows| - 1].position
  }

  // --------------------------------------------------------------- admission

  predicate Repeats(batch: seq<FactDraft>, n: nat)
    requires n < |batch|
  {
    exists i :: 0 <= i < n && batch[i].factId == batch[n].factId
  }

  /** The first problem among the first `n` drafts, in the order they are checked. */
  function ProblemUpTo(batch: seq<FactDraft>, n: nat): Option<FactError>
    requires n <= |batch|
  {
    if n == 0 then None
    else
      var earlier := ProblemUpTo(batch, n - 1);
      if earlier.Some? then earlier
      else if !DraftValid(batch[n - 1]) then Some(Invalid)
      else if Repeats(batch, n - 1) then Some(Conflict(Some(batch[n - 1].factId)))
      else if !CausesValid(batch[n - 1]) then Some(Invalid)
      else None
  }

  function BatchProblem(stream: Name, expected: nat, batch: seq<FactDraft>): Option<FactError> {
    if !NameValid(stream) then Some(Invalid)
    else if batch == [] || |batch| > MAX_FACT_BATCH || expected + |batch| > I64_MAX then Some(Invalid)
    else ProblemUpTo(batch, |batch|)
  }

  // ---------------------------------------------------------------- planning

  function Placed(stream: Name, expected: nat, batch: seq<FactDraft>): (records: seq<FactRecord>)
    ensures |records| == |batch|
    ensures forall i :: 0 <= i < |batch| ==> records[i] == FactRecord(stream, expected + i + 1, batch[i])
  {
    seq(|batch|, i requires 0 <= i < |batch| => FactRecord(stream, expected + i + 1, batch[i]))
  }

  /** Some record of the batch carries an identity that is already committed. */
  predicate Reuses(identities: map<Name, FactRecord>, batch: seq<FactDraft>) {
    exists i :: 0 <= i < |batch| && batch[i].factId in identities
  }

  /** The first of the first `n` planned records with this fact id. */
  function FirstInBatch(records: seq<FactRecord>, n: nat, id: Name): Option<FactRecord>
    requires n <= |records|
  {
    if n == 0 then None
    else
      var earlier := FirstInBatch(records, n - 1, id);
      if earlier.Some? then earlier
      else if records[n - 1].draft.factId == id then Some(records[n - 1])
      else None
  }

  /** The record a cause's fact id names: an earlier record of the batch, or a committed one. */
  function Named(identities: map<Name, FactRecord>, records: seq<FactRecord>, n: nat, id: Name): Option<FactRecord>
    requires n <= |records|
  {
    var inBatch := FirstInBatch(records, n, id);
    if inBatch.Some? then inBatch
    else if id in identities then Some(identities[id])
    else None
  }

  predicate Resolves(identities: map<Name, FactRecord>, records: seq<FactRecord>, n: nat, cause: FactRef)
    requires n <= |records|
  {
    var found := Named(identities, records, n, cause.factId);
    found.Some? && RefOf(found.value) == cause
  }

  function RefOf(record: FactRecord): FactRef {
    FactRef(record.stream, record.position, record.draft.factId)
  }

  /** The first of the first `m` causes of record `n` that does not resolve. */
  function UnresolvedIn(identities: map<Name, FactRecord>, records: seq<FactRecord>, n: nat, m: nat): Option<Name>
    requires n < |records| && m <= |records[n].draft.causes|
  {
    if m == 0 then None
    else
      var earlier := UnresolvedIn(identities, records, n, m - 1);
      if earlier.Some? then earlier
      else if Resolves(identities, records, n, records[n].draft.causes[m - 1]) then None
      else Some(records[n].draft.causes[m - 1].factId)
  }

  /** The first cause of the first `n` records that does not resolve. */
  function UnresolvedUpTo(identities: map<Name, FactRecord>, records: seq<FactRecord>, n: nat): Option<Name>
    requires n <= |records|
  {
    if n == 0 then None
    else
      var earlier := UnresolvedUpTo(identities, records, n - 1);
      if earlier.Some? then earlier else UnresolvedIn(identities, records, n - 1, |records[n - 1].draft.causes|)
  }

  function Plan(j: Journal, stream: Name, expected: nat, batch: seq<FactDraft>): Result<seq<FactRecord>, FactError> {
    var records := Placed(stream, expected, batch);
    var head := Head(Rows(j, stream));
    if Reuses(j.identities, batch) then Err(Conflict(None))
    else if expected != head then Err(StalePosition(expected, head))
    else
      var missing := UnresolvedUpTo(j.identities, records, |records|);
      if missing.Some? then Err(MissingCause(missing.value)) else Ok(records)
  }

  // -------------------------------------------------------------- the append

  predicate SameDrafts(records: seq<FactRecord>, batch: seq<FactDraft>) {
    |records| == |batch| && forall i :: 0 <= i < |batch| ==> records[i].draft == batch[i]
  }

  function IdentitiesUpTo(identities: map<Name, FactRecord>, records: seq<FactRecord>, n: nat): map<Name, FactRecord>
    requires n <= |records|
  {
    if n == 0 then identities
    else IdentitiesUpTo(identities, records, n - 1)[records[n - 1].draft.factId := records[n - 1]]
  }

  function Committed(j: Journal, stream: Name, expected: nat, records: seq<FactRecord>): Journal {
    Journal(
      j.streams[stream := Rows(j, stream) + records],
      IdentitiesUpTo(j.identities, records, |records|),
      j.batches[(stream, expected) := records],
      j.history + records)
  }

  /** What one append answers. */
  function Answer(j: Journal, stream: Name, expected: nat, batch: seq<FactDraft>): Result<seq<FactRecord>, FactError> {
    var problem := BatchProblem(stream, expected, batch);
    if problem.Some? then Err(problem.value)
    else if (stream, expected) in j.batches then
      if SameDrafts(j.batches[(stream, expected)], batch) then Ok(j.batches[(stream, expected)]) else Err(Conflict(None))
    else Plan(j, stream, expected, batch)
  }

  /** The journal one append leaves: changed only by a planned, committed batch. */
  function After(j: Journal, stream: Name, expected: nat, batch: seq<FactDraft>): Journal {
    var answer := Answer(j, stream, expected, batch);
    if answer.Ok? && (stream, expected) !in j.batches then Committed(j, stream, expected, answer.value) else j
  }

  /** The records of a stream above a position, at most `limit` of them. */
  function AboveUpTo(rows: seq<FactRecord>, after: nat, n: nat): seq<FactRecord>
    requires n <= |rows|
  {
    if n == 0 then []
    else
      var earlier := AboveUpTo(rows, after, n - 1);
      if rows[n - 1].position > after then earlier + [rows[n - 1]] else earlier
  }

  function Read(j: Journal, stream: Name, after: nat, limit: nat): Result<seq<FactRecord>, FactError> {
    if !NameValid(stream) || !(1 <= limit <= MAX_READ) then Err(Invalid)
    else
      var rows := Rows(j, stream);
      var above := AboveUpTo(rows, after, |rows|);
      Ok(if |above| <= limit then above else above[..limit])
  }

  // ------------------------------------------------------------------- the class

  class MemoryFactJournal {
    var streams: map<Name, seq<FactRecord>>
    var identities: map<Name, FactRecord>
    var batches: map<(Name, nat), seq<FactRecord>>
    ghost var history: seq<FactRecord>

    ghost function View(): Journal
      reads this
    {
      Journal(streams, identities, batches, history)
    }

    constructor ()
      ensures View() == EMPTY
    {
      streams, identities, batches, history := map[], map[], map[], [];
    }

    method Append(stream: Name, expected: nat, batch: seq<FactDraft>) returns (r: Result<seq<FactRecord>, FactError>)
      modifies this
      ensures r == Answer(old(View()), stream, expected, batch)
      ensures View() == After(old(View()), stream, expected, batch)
    {
      var problem := ValidateBatch(stream, expected, batch);
      if problem.Some? {
        return Err(problem.value);
      }
      if (stream, expected) in batches {
        r := Retry(batches[(stream, expected)], batch);
        return;
      }
      var rows := if stream in streams then streams[stream] else [];
      var planned := PlanAppend(stream, expected, rows, batch);
      if planned.Err? {
        return planned;
      }
      var records := planned.value;
      var i := 0;
      while i < |records|
        invariant 0 <= i <= |records|
        invariant identities == IdentitiesUpTo(old(identities), records, i)
        invariant streams == old(streams) && batches == old(batches) && history == old(history)
      {
        identities := identities[records[i].draft.factId := records[i]];
        i := i + 1;
      }
      streams := streams[stream := rows + records];
      batches := batches[(stream, expected) := records];
      history := history + records;
      return Ok(records);
    }

    /** Plan a batch against the committed identities and the stream's head. */
    method PlanAppend(stream: Name, expected: nat, rows: seq<FactRecord>, batch: seq<FactDraft>)
      returns (r: Result<seq<FactRecord>, FactError>)
      requires rows == Rows(View(), stream)
      ensures r == Plan(View(), stream, expected, batch)
    {
      var records := Placed(stream, expected, batch);
      if Reuses(identities, batch) {
        return Err(Conflict(None));
      }
      if expected != Head(rows) {
        return Err(StalePosition(expected, Head(rows)));
      }
      var n := 0;
      while n < |records|
        invariant 0 <= n <= |records|
        invariant UnresolvedUpTo(identities, records, n).None?
      {
        var causes := records[n].draft.causes;
        var m := 0;
        while m < |causes|
          invariant 0 <= m <= |causes|
          invariant UnresolvedIn(identities, records, n, m).None?
        {
          if !Resolves(identities, records, n, causes[m]) {
            UnresolvedStaysIn(identities, records, n, m + 1, |causes|);
            UnresolvedStays(identities, records, n + 1, |records|);
            return Err(MissingCause(causes[m].factId));
          }
          m := m + 1;
        }
        n := n + 1;
      }
      return Ok(records);
    }

    method ReadRecords(stream: Name, after: nat, limit: nat) returns (r: Result<seq<FactRecord>, FactError>)
      ensures r == Read(View(), stream, after, limit)
    {
      if !NameValid(stream) || !(1 <= limit <= MAX_READ) {
        return Err(Invalid);
      }
      var rows := if stream in streams then streams[stream] else [];
      var above := AboveUpTo(rows, after, |rows|);
      return Ok(if |above| <= limit then above else above[..limit]);
    }
  }

  /**
   A batch under a position that is taken: exactly the saved drafts, in their order,
   are answered with the saved records, and anything else is a conflict.
   */
  method Retry(original: seq<FactRecord>, batch: seq<FactDraft>) returns (r: Result<seq<FactRecord>, FactError>)
    ensures r.Ok? <==> |original| == |batch| && forall i :: 0 <= i < |batch| ==> original[i].draft == batch[i]
    ensures r.Ok? ==> r.value == original
    ensures r.Err? ==> r.error == Conflict(None)
  {
    if |original| != |batch| {
      return Err(Conflict(None));
    }
    for i := 0 to |batch|
      invariant forall k :: 0 <= k < i ==> original[k].draft == batch[k]
    {
      if original[i].draft != batch[i] {
        return Err(Conflict(None));
      }
    }
    return Ok(original);
  }

  /** Check a batch draft by draft, remembering the identities seen. */
  method ValidateBatch(stream: Name, expected: nat, batch: seq<FactDraft>) returns (r: Option<FactError>)
    ensures r == BatchProblem(stream, expected, batch)
  {
    if !NameValid(stream) || batch == [] || |batch| > MAX_FACT_BATCH || expected + |batch| > I64_MAX {
      return Some(Invalid);
    }
    var seen: set<Name> := {};
    var i := 0;
    while i < |batch|
      invariant 0 <= i <= |batch|
      invariant ProblemUpTo(batch, i).None?
      invariant forall id :: id in seen <==> exists k :: 0 <= k < i && batch[k].factId == id
    {
      var draft := batch[i];
      if !DraftValid(draft) {
        ProblemStays(batch, i + 1, |batch|);
        return Some(Invalid);
      }
      if draft.factId in seen {
        ProblemStays(batch, i + 1, |batch|);
        return Some(Conflict(Some(draft.factId)));
      }
      assert !Repeats(batch, i);
      seen := seen + {draft.factId};
      if !CausesValid(draft) {
        ProblemStays(batch, i + 1, |batch|);
        return Some(Invalid);
      }
      i := i + 1;
    }
    return None;
  }

  lemma {:induction false} ProblemStays(batch: seq<FactDraft>, n: nat, m: nat)
    requires n <= m <= |batch| && ProblemUpTo(batch, n).Some?
    ensures ProblemUpTo(batch, m) == ProblemUpTo(batch, n)
  {
    if n < m { ProblemStays(batch, n, m - 1); }
  }

  lemma {:induction false} UnresolvedStaysIn(identities: map<Name, FactRecord>, records: seq<FactRecord>, n: nat, m: nat, k: nat)
    requires n < |records| && m <= k <= |records[n].draft.causes|
    requires UnresolvedIn(identities, records, n, m).Some?
    ensures UnresolvedIn(identities, records, n, k) == UnresolvedIn(identities, records, n, m)
  {
    if m < k { UnresolvedStaysIn(identities, records, n, m, k - 1); }
  }

  lemma {:induction false} UnresolvedStays(identities: map<Name, FactRecord>, records: seq<FactRecord>, n: nat, m: nat)
    requires n <= m <= |records| && UnresolvedUpTo(identities, records, n).Some?
    ensures UnresolvedUpTo(identities, records, m) == UnresolvedUpTo(identities, records, n)
  {
    if n < m { UnresolvedStays(identities, records, n, m - 1); }
  }
}
