/**
 Laws of the fact journal over every run of appends: the three maps agree,
 causality is acyclic, and a committed batch can be retried forever.
 */
module FactJournalLaws {
  import opened Wrappers
  import opened FactTypes
  import opened FactJournal

  // ---------------------------------------------------------------- invariant

  /** Row `i` of a stream lies at its position and under its identity. */
  ghost predicate RowOk(rows: seq<FactRecord>, i: nat, stream: Name, identities: map<Name, FactRecord>)
    requires i < |rows|
  {
    && rows[i].stream == stream && rows[i].position == i + 1
    && rows[i].draft.factId in identities && identities[rows[i].draft.factId] == rows[i]
  }

  ghost predicate StreamOk(rows: seq<FactRecord>, stream: Name, identities: map<Name, FactRecord>) {
    rows != [] && forall i :: 0 <= i < |rows| ==> RowOk(rows, i, stream, identities)
  }

  ghost predicate StreamsOk(j: Journal) {
    forall s :: s in j.streams ==> StreamOk(j.streams[s], s, j.identities)
  }

  /** The record is the one its own coordinates name. */
  ghost predicate InStream(j: Journal, record: FactRecord) {
    && record.stream in j.streams
    && 0 < record.position <= |j.streams[record.stream]|
    && j.streams[record.stream][record.position - 1] == record
  }

  ghost predicate IdentitiesOk(j: Journal) {
    forall id :: id in j.identities ==> j.identities[id].draft.factId == id && InStream(j, j.identities[id])
  }

  /** A batch lies in its stream right after its expected position. */
  ghost predicate BatchAt(j: Journal, stream: Name, expected: nat, records: seq<FactRecord>) {
    && stream in j.streams && records != []
    && expected + |records| <= |j.streams[stream]|
    && forall i :: 0 <= i < |records| ==> j.streams[stream][expected + i] == records[i]
  }

  ghost predicate BatchesOk(j: Journal) {
    forall stream, expected :: (stream, expected) in j.batches ==>
      BatchAt(j, stream, expected, j.batches[(stream, expected)])
  }

  /** One of the first `n` committed records is exactly the one named. */
  ghost predicate Earlier(history: seq<FactRecord>, n: nat, named: FactRef)
    requires n <= |history|
  {
    exists k :: 0 <= k < n && RefOf(history[k]) == named
  }

  /** The `n`-th committed record's causes name, exactly, records committed before it. */
  ghost predicate CausesOk(history: seq<FactRecord>, n: nat)
    requires n < |history|
  {
    forall c :: 0 <= c < |history[n].draft.causes| ==> Earlier(history, n, history[n].draft.causes[c])
  }

  ghost predicate Holds(history: seq<FactRecord>, record: FactRecord) {
    exists n :: 0 <= n < |history| && history[n] == record
  }

  /** The history lists exactly the committed records. */
  ghost predicate Listed(history: seq<FactRecord>, identities: map<Name, FactRecord>) {
    && (forall n :: 0 <= n < |history| ==>
          history[n].draft.factId in identities && identities[history[n].draft.factId] == history[n])
    && (forall id :: id in identities ==> Holds(history, identities[id]))
  }

  ghost predicate HistoryOk(j: Journal) {
    && Listed(j.history, j.identities)
    && (forall m, n :: 0 <= m < n < |j.history| ==> j.history[m].draft.factId != j.history[n].draft.factId)
    && (forall n :: 0 <= n < |j.history| ==> CausesOk(j.history, n))
  }

  ghost predicate Inv(j: Journal) {
    StreamsOk(j) && IdentitiesOk(j) && BatchesOk(j) && HistoryOk(j)
  }

  // ------------------------------------------------------- what a commit does

  lemma {:induction false} IdentitiesGain(identities: map<Name, FactRecord>, records: seq<FactRecord>, n: nat)
    requires n <= |records|
    requires forall a, b :: 0 <= a < b < |records| ==> records[a].draft.factId != records[b].draft.factId
    requires forall a :: 0 <= a < |records| ==> records[a].draft.factId !in identities
    ensures var r := IdentitiesUpTo(identities, records, n);
            && (forall id :: id in identities ==> id in r && r[id] == identities[id])
            && (forall a :: 0 <= a < n ==> records[a].draft.factId in r && r[records[a].draft.factId] == records[a])
            && (forall id :: id in r ==> id in identities || exists a :: 0 <= a < n && records[a].draft.factId == id)
  {
    if n > 0 { IdentitiesGain(identities, records, n - 1); }
  }

  lemma {:induction false} NoRepeats(batch: seq<FactDraft>, n: nat)
    requires n <= |batch| && ProblemUpTo(batch, n).None?
    ensures forall a, b :: 0 <= a < b < n ==> batch[a].factId != batch[b].factId
  {
    if n > 0 {
      NoRepeats(batch, n - 1);
      assert !Repeats(batch, n - 1);
    }
  }

  lemma {:induction false} FirstInBatchIsThere(records: seq<FactRecord>, n: nat, id: Name)
    requires n <= |records|
    ensures var r := FirstInBatch(records, n, id);
            && (r.Some? ==> exists i :: 0 <= i < n && records[i] == r.value && r.value.draft.factId == id)
            && (r.None? ==> forall i :: 0 <= i < n ==> records[i].draft.factId != id)
  {
    if n > 0 { FirstInBatchIsThere(records, n - 1, id); }
  }

  lemma {:induction false} ResolvedIn(identities: map<Name, FactRecord>, records: seq<FactRecord>, n: nat, m: nat)
    requires n < |records| && m <= |records[n].draft.causes|
    requires UnresolvedIn(identities, records, n, m).None?
    ensures forall c :: 0 <= c < m ==> Resolves(identities, records, n, records[n].draft.causes[c])
  {
    if m > 0 { ResolvedIn(identities, records, n, m - 1); }
  }

  lemma {:induction false} AllResolved(identities: map<Name, FactRecord>, records: seq<FactRecord>, n: nat, k: nat)
    requires k < n <= |records| && UnresolvedUpTo(identities, records, n).None?
    ensures forall c :: 0 <= c < |records[k].draft.causes| ==> Resolves(identities, records, k, records[k].draft.causes[c])
  {
    if k < n - 1 {
      AllResolved(identities, records, n - 1, k);
    } else {
      ResolvedIn(identities, records, k, |records[k].draft.causes|);
    }
  }

  /** What is known of a batch the journal is about to commit. */
  ghost predicate Plannable(j: Journal, stream: Name, expected: nat, records: seq<FactRecord>) {
    && records != []
    && expected == |Rows(j, stream)|
    && (forall i :: 0 <= i < |records| ==>
          records[i].stream == stream && records[i].position == expected + i + 1 && records[i].draft.factId !in j.identities)
    && (forall a, b :: 0 <= a < b < |records| ==> records[a].draft.factId != records[b].draft.factId)
    && UnresolvedUpTo(j.identities, records, |records|).None?
  }

  lemma RowsArePlaced(j: Journal, stream: Name)
    requires Inv(j)
    ensures forall i :: 0 <= i < |Rows(j, stream)| ==> Rows(j, stream)[i].stream == stream && Rows(j, stream)[i].position == i + 1
  {
    forall i | 0 <= i < |Rows(j, stream)| ensures Rows(j, stream)[i].stream == stream && Rows(j, stream)[i].position == i + 1 {
      assert RowOk(Rows(j, stream), i, stream, j.identities);
    }
  }

  lemma HeadIsLength(j: Journal, stream: Name)
    requires Inv(j)
    ensures Head(Rows(j, stream)) == |Rows(j, stream)|
  {
    RowsArePlaced(j, stream);
  }

  lemma PlannedIsPlannable(j: Journal, stream: Name, expected: nat, batch: seq<FactDraft>)
    requires Inv(j) && Answer(j, stream, expected, batch).Ok? && (stream, expected) !in j.batches
    ensures Plannable(j, stream, expected, Answer(j, stream, expected, batch).value)
  {
    var records := Placed(stream, expected, batch);
    HeadIsLength(j, stream);
    NoRepeats(batch, |batch|);
    forall i | 0 <= i < |records| ensures records[i].draft.factId !in j.identities {
      assert records[i].draft == batch[i];
    }
  }

  lemma CommitKeepsRows(j: Journal, stream: Name, expected: nat, records: seq<FactRecord>, i: nat)
    requires Inv(j) && Plannable(j, stream, expected, records) && i < |Rows(j, stream) + records|
    ensures RowOk(Rows(j, stream) + records, i, stream, IdentitiesUpTo(j.identities, records, |records|))
  {
    var rows := Rows(j, stream);
    IdentitiesGain(j.identities, records, |records|);
    assert (rows + records)[i] == if i < |rows| then rows[i] else records[i - |rows|];
    if i < |rows| { assert RowOk(rows, i, stream, j.identities); }
  }

  lemma OtherStreamStays(j: Journal, stream: Name, records: seq<FactRecord>)
    requires StreamsOk(j) && stream in j.streams
    requires forall a, b :: 0 <= a < b < |records| ==> records[a].draft.factId != records[b].draft.factId
    requires forall a :: 0 <= a < |records| ==> records[a].draft.factId !in j.identities
    ensures StreamOk(j.streams[stream], stream, IdentitiesUpTo(j.identities, records, |records|))
  {
    var rows := j.streams[stream];
    IdentitiesGain(j.identities, records, |records|);
    forall i | 0 <= i < |rows| ensures RowOk(rows, i, stream, IdentitiesUpTo(j.identities, records, |records|)) {
      assert RowOk(rows, i, stream, j.identities);
    }
  }

  lemma CommitKeepsStreams(j: Journal, stream: Name, expected: nat, records: seq<FactRecord>)
    requires Inv(j) && Plannable(j, stream, expected, records)
    ensures StreamsOk(Committed(j, stream, expected, records))
  {
    var t := Committed(j, stream, expected, records);
    forall s | s in t.streams ensures StreamOk(t.streams[s], s, t.identities) {
      if s == stream {
        forall i | 0 <= i < |t.streams[s]| ensures RowOk(t.streams[s], i, s, t.identities) { CommitKeepsRows(j, stream, expected, records, i); }
      } else {
        OtherStreamStays(j, s, records);
      }
    }
  }

  lemma InStreamIsStable(j: Journal, stream: Name, expected: nat, records: seq<FactRecord>, record: FactRecord)
    requires InStream(j, record)
    ensures InStream(Committed(j, stream, expected, records), record)
  {
  }

  lemma CommitKeepsIdentities(j: Journal, stream: Name, expected: nat, records: seq<FactRecord>)
    requires Inv(j) && Plannable(j, stream, expected, records)
    ensures IdentitiesOk(Committed(j, stream, expected, records))
  {
    IdentitiesGain(j.identities, records, |records|);
    var t := Committed(j, stream, expected, records);
    forall id | id in t.identities ensures t.identities[id].draft.factId == id && InStream(t, t.identities[id]) {
      if id in j.identities {
        InStreamIsStable(j, stream, expected, records, j.identities[id]);
      } else {
        var a :| 0 <= a < |records| && records[a].draft.factId == id;
        assert t.streams[stream][expected + a] == records[a];
      }
    }
  }

  lemma BatchIsStable(j: Journal, t: Journal, stream: Name, expected: nat, records: seq<FactRecord>)
    requires BatchAt(j, stream, expected, records) && stream in t.streams && j.streams[stream] <= t.streams[stream]
    ensures BatchAt(t, stream, expected, records)
  {
  }

  /** The committed batch lies right after the rows its stream had. */
  lemma NewBatchIsAt(j: Journal, stream: Name, expected: nat, records: seq<FactRecord>)
    requires Plannable(j, stream, expected, records) && |Rows(j, stream)| == expected
    ensures BatchAt(Committed(j, stream, expected, records), stream, expected, records)
  {
    var rows := Rows(j, stream);
    forall i | 0 <= i < |records| ensures (rows + records)[expected + i] == records[i] {
    }
  }

  lemma CommitKeepsBatches(j: Journal, stream: Name, expected: nat, records: seq<FactRecord>)
    requires Inv(j) && Plannable(j, stream, expected, records)
    ensures BatchesOk(Committed(j, stream, expected, records))
  {
    var t := Committed(j, stream, expected, records);
    NewBatchIsAt(j, stream, expected, records);
    forall s, e | (s, e) in t.batches ensures BatchAt(t, s, e, t.batches[(s, e)]) {
      if (s, e) != (stream, expected) {
        assert BatchAt(j, s, e, j.batches[(s, e)]);
        BatchIsStable(j, t, s, e, j.batches[(s, e)]);
      }
    }
  }

  lemma ResolvedIsEarlier(j: Journal, records: seq<FactRecord>, k: nat, cause: FactRef)
    requires HistoryOk(j) && k < |records| && Resolves(j.identities, records, k, cause)
    ensures Earlier(j.history + records, |j.history| + k, cause)
  {
    var history := j.history + records;
    FirstInBatchIsThere(records, k, cause.factId);
    var found := FirstInBatch(records, k, cause.factId);
    if found.Some? {
      var i :| 0 <= i < k && records[i] == found.value;
      assert history[|j.history| + i] == records[i];
    } else {
      assert Holds(j.history, j.identities[cause.factId]);
      var i :| 0 <= i < |j.history| && j.history[i] == j.identities[cause.factId];
      assert history[i] == j.history[i];
    }
  }

  lemma NewCausesOk(j: Journal, records: seq<FactRecord>, k: nat)
    requires HistoryOk(j) && k < |records|
    requires UnresolvedUpTo(j.identities, records, |records|).None?
    ensures CausesOk(j.history + records, |j.history| + k)
  {
    AllResolved(j.identities, records, |records|, k);
    assert (j.history + records)[|j.history| + k] == records[k];
    forall c | 0 <= c < |records[k].draft.causes|
      ensures Earlier(j.history + records, |j.history| + k, records[k].draft.causes[c])
    {
      ResolvedIsEarlier(j, records, k, records[k].draft.causes[c]);
    }
  }

  lemma EarlierIsStable(history: seq<FactRecord>, longer: seq<FactRecord>, n: nat, named: FactRef)
    requires history <= longer && n <= |history| && Earlier(history, n, named)
    ensures Earlier(longer, n, named)
  {
    var k :| 0 <= k < n && RefOf(history[k]) == named;
    assert longer[k] == history[k];
  }

  lemma OldCausesOk(history: seq<FactRecord>, longer: seq<FactRecord>, n: nat)
    requires history <= longer && n < |history| && CausesOk(history, n)
    ensures CausesOk(longer, n)
  {
    assert longer[n] == history[n];
    forall c | 0 <= c < |history[n].draft.causes| ensures Earlier(longer, n, history[n].draft.causes[c]) {
      EarlierIsStable(history, longer, n, history[n].draft.causes[c]);
    }
  }

  lemma CommitKeepsCauses(j: Journal, records: seq<FactRecord>)
    requires HistoryOk(j) && UnresolvedUpTo(j.identities, records, |records|).None?
    ensures forall n :: 0 <= n < |j.history + records| ==> CausesOk(j.history + records, n)
  {
    var history := j.history + records;
    forall n | 0 <= n < |history| ensures CausesOk(history, n) {
      if n < |j.history| { OldCausesOk(j.history, history, n); }
      else { NewCausesOk(j, records, n - |j.history|); }
    }
  }

  lemma CommitKeepsListed(history: seq<FactRecord>, identities: map<Name, FactRecord>, records: seq<FactRecord>)
    requires Listed(history, identities)
    requires forall a, b :: 0 <= a < b < |records| ==> records[a].draft.factId != records[b].draft.factId
    requires forall a :: 0 <= a < |records| ==> records[a].draft.factId !in identities
    ensures Listed(history + records, IdentitiesUpTo(identities, records, |records|))
  {
    var ids, longer := IdentitiesUpTo(identities, records, |records|), history + records;
    IdentitiesGain(identities, records, |records|);
    forall n | 0 <= n < |longer| ensures longer[n].draft.factId in ids && ids[longer[n].draft.factId] == longer[n] {
      assert longer[n] == if n < |history| then history[n] else records[n - |history|];
    }
    forall id | id in ids ensures Holds(longer, ids[id]) {
      if id in identities {
        assert Holds(history, identities[id]);
        var n :| 0 <= n < |history| && history[n] == identities[id];
        assert longer[n] == history[n];
      } else {
        var a :| 0 <= a < |records| && records[a].draft.factId == id;
        assert longer[|history| + a] == records[a];
      }
    }
  }

  lemma CommitKeepsHistory(j: Journal, stream: Name, expected: nat, records: seq<FactRecord>)
    requires Inv(j) && Plannable(j, stream, expected, records)
    ensures HistoryOk(Committed(j, stream, expected, records))
  {
    CommitKeepsCauses(j, records);
    CommitKeepsListed(j.history, j.identities, records);
    CommitKeepsDistinct(j, records);
  }

  lemma CommitKeepsDistinct(j: Journal, records: seq<FactRecord>)
    requires HistoryOk(j)
    requires forall a, b :: 0 <= a < b < |records| ==> records[a].draft.factId != records[b].draft.factId
    requires forall a :: 0 <= a < |records| ==> records[a].draft.factId !in j.identities
    ensures var h := j.history + records;
            forall m, n :: 0 <= m < n < |h| ==> h[m].draft.factId != h[n].draft.factId
  {
  }

  /** Every append keeps the journal's invariant, whatever it is given. */
  lemma AppendKeepsInv(j: Journal, stream: Name, expected: nat, batch: seq<FactDraft>)
    requires Inv(j)
    ensures Inv(After(j, stream, expected, batch))
  {
    var answer := Answer(j, stream, expected, batch);
    if answer.Ok? && (stream, expected) !in j.batches {
      PlannedIsPlannable(j, stream, expected, batch);
      CommitKeepsStreams(j, stream, expected, answer.value);
      CommitKeepsIdentities(j, stream, expected, answer.value);
      CommitKeepsBatches(j, stream, expected, answer.value);
      CommitKeepsHistory(j, stream, expected, answer.value);
    }
  }

  // ------------------------------------------------------------------- runs

  datatype Op = Op(stream: Name, expected: nat, batch: seq<FactDraft>)

  function RunUpTo(j: Journal, ops: seq<Op>, n: nat): Journal
    requires n <= |ops|
  {
    if n == 0 then j
    else After(RunUpTo(j, ops, n - 1), ops[n - 1].stream, ops[n - 1].expected, ops[n - 1].batch)
  }

  function Run(j: Journal, ops: seq<Op>): Journal {
    RunUpTo(j, ops, |ops|)
  }

  /** In every reachable journal the three maps agree. */
  lemma {:induction false} RunKeepsInv(j: Journal, ops: seq<Op>, n: nat)
    requires Inv(j) && n <= |ops|
    ensures Inv(RunUpTo(j, ops, n))
  {
    if n > 0 {
      RunKeepsInv(j, ops, n - 1);
      AppendKeepsInv(RunUpTo(j, ops, n - 1), ops[n - 1].stream, ops[n - 1].expected, ops[n - 1].batch);
    }
  }

  /** Nothing committed is ever lost or changed. */
  ghost predicate Extends(j: Journal, later: Journal) {
    && (forall s :: s in j.streams ==> s in later.streams && j.streams[s] <= later.streams[s])
    && (forall id :: id in j.identities ==> id in later.identities && later.identities[id] == j.identities[id])
    && (forall b :: b in j.batches ==> b in later.batches && later.batches[b] == j.batches[b])
    && j.history <= later.history
  }

  lemma AppendExtends(j: Journal, stream: Name, expected: nat, batch: seq<FactDraft>)
    requires Inv(j)
    ensures Extends(j, After(j, stream, expected, batch))
  {
    var answer := Answer(j, stream, expected, batch);
    if answer.Ok? && (stream, expected) !in j.batches {
      PlannedIsPlannable(j, stream, expected, batch);
      IdentitiesGain(j.identities, answer.value, |answer.value|);
    }
  }

  lemma {:induction false} RunExtends(j: Journal, ops: seq<Op>, n: nat)
    requires Inv(j) && n <= |ops|
    ensures Extends(j, RunUpTo(j, ops, n))
  {
    if n > 0 {
      RunExtends(j, ops, n - 1);
      RunKeepsInv(j, ops, n - 1);
      var t := RunUpTo(j, ops, n - 1);
      AppendExtends(t, ops[n - 1].stream, ops[n - 1].expected, ops[n - 1].batch);
      ExtendsTwice(j, t, RunUpTo(j, ops, n));
    }
  }

  lemma ExtendsTwice(a: Journal, b: Journal, c: Journal)
    requires Extends(a, b) && Extends(b, c)
    ensures Extends(a, c)
  {
    forall s | s in a.streams ensures s in c.streams && a.streams[s] <= c.streams[s] {
      assert a.streams[s] <= b.streams[s] <= c.streams[s];
    }
  }

  // ------------------------------------------------------------ main results

  /**
   A successful append can be repeated after any later operations: it answers
   with the original records and changes nothing.
   */
  lemma RetryForever(j: Journal, stream: Name, expected: nat, batch: seq<FactDraft>, later: seq<Op>)
    requires Inv(j) && Answer(j, stream, expected, batch).Ok?
    ensures var t := Run(After(j, stream, expected, batch), later);
            && Answer(t, stream, expected, batch) == Answer(j, stream, expected, batch)
            && After(t, stream, expected, batch) == t
  {
    var s := After(j, stream, expected, batch);
    AcceptedIsKept(j, stream, expected, batch);
    AppendKeepsInv(j, stream, expected, batch);
    RunExtends(s, later, |later|);
    assert (stream, expected) in s.batches;
  }

  /** An accepted batch is on record, under its position, with the records it was answered with. */
  lemma AcceptedIsKept(j: Journal, stream: Name, expected: nat, batch: seq<FactDraft>)
    requires Answer(j, stream, expected, batch).Ok?
    ensures var s := After(j, stream, expected, batch);
            && (stream, expected) in s.batches
            && s.batches[(stream, expected)] == Answer(j, stream, expected, batch).value
            && SameDrafts(s.batches[(stream, expected)], batch)
  {
  }

  /** When a batch is accepted: an exact retry, or a new batch at the head that is new and resolves. */
  ghost predicate ExactRetry(j: Journal, stream: Name, expected: nat, batch: seq<FactDraft>) {
    (stream, expected) in j.batches && SameDrafts(j.batches[(stream, expected)], batch)
  }

  /**
   Any other batch that reuses a committed fact id, or that names a position the
   stream has passed, is refused and changes nothing.
   */
  lemma OtherBatchesFail(j: Journal, stream: Name, expected: nat, batch: seq<FactDraft>)
    requires Inv(j) && !ExactRetry(j, stream, expected, batch)
    requires Reuses(j.identities, batch) || expected < |Rows(j, stream)|
    ensures Answer(j, stream, expected, batch).Err? && After(j, stream, expected, batch) == j
  {
    HeadIsLength(j, stream);
  }

  /** A valid batch that is not a retry is accepted exactly when it continues the head, is new and resolves. */
  lemma NewBatchAccepted(j: Journal, stream: Name, expected: nat, batch: seq<FactDraft>)
    requires Inv(j) && BatchProblem(stream, expected, batch).None? && !ExactRetry(j, stream, expected, batch)
    ensures var records := Placed(stream, expected, batch);
            Answer(j, stream, expected, batch).Ok?
            <==> expected == |Rows(j, stream)| && !Reuses(j.identities, batch)
                 && UnresolvedUpTo(j.identities, records, |records|).None?
  {
    HeadIsLength(j, stream);
    if (stream, expected) in j.batches {
      assert BatchAt(j, stream, expected, j.batches[(stream, expected)]);
    }
  }

  /** After a new batch is accepted its stream ends with exactly its drafts and no other stream moved. */
  lemma NewBatchCommits(j: Journal, stream: Name, expected: nat, batch: seq<FactDraft>)
    requires Inv(j) && Answer(j, stream, expected, batch).Ok? && (stream, expected) !in j.batches
    ensures var t := After(j, stream, expected, batch);
            && Rows(t, stream) == Rows(j, stream) + Placed(stream, expected, batch)
            && (forall s :: s != stream ==> Rows(t, s) == Rows(j, s))
            && expected == |Rows(j, stream)|
  {
    PlannedIsPlannable(j, stream, expected, batch);
    assert Answer(j, stream, expected, batch) == Plan(j, stream, expected, batch);
  }

  /** `cause` is named, exactly, by one of the causes of `effect`. */
  ghost predicate Caused(j: Journal, cause: FactRecord, effect: FactRecord) {
    cause in j.history && effect in j.history && RefOf(cause) in effect.draft.causes
  }

  /** Causes are committed strictly earlier. */
  lemma CauseIsEarlier(j: Journal, cause: FactRecord, effect: FactRecord, n: nat) returns (m: nat)
    requires Inv(j) && Caused(j, cause, effect) && n < |j.history| && j.history[n] == effect
    ensures m < n && j.history[m] == cause
  {
    assert CausesOk(j.history, n);
    var c :| 0 <= c < |effect.draft.causes| && effect.draft.causes[c] == RefOf(cause);
    assert Earlier(j.history, n, RefOf(cause));
    var k :| 0 <= k < n && RefOf(j.history[k]) == RefOf(cause);
    assert j.identities[j.history[k].draft.factId] == j.history[k];
    var i :| 0 <= i < |j.history| && j.history[i] == cause;
    m := k;
  }

  lemma {:induction false} ChainDescends(j: Journal, chain: seq<FactRecord>, n: nat) returns (first: nat)
    requires Inv(j) && 0 < |chain|
    requires n < |j.history| && j.history[n] == chain[|chain| - 1]
    requires forall i :: 0 < i < |chain| ==> Caused(j, chain[i - 1], chain[i])
    ensures first <= n && (|chain| > 1 ==> first < n) && j.history[first] == chain[0]
  {
    if |chain| == 1 {
      first := n;
    } else {
      var k := |chain| - 1;
      assert Caused(j, chain[k - 1], chain[k]);
      var m := CauseIsEarlier(j, chain[k - 1], chain[k], n);
      first := ChainDescends(j, chain[..k], m);
    }
  }

  /** In every reachable journal no fact is, through any chain of causes, a cause of itself. */
  lemma CausalityIsAcyclic(ops: seq<Op>, chain: seq<FactRecord>)
    requires |chain| > 1
    requires var j := Run(EMPTY, ops);
             forall i :: 0 < i < |chain| ==> Caused(j, chain[i - 1], chain[i])
    ensures chain[0] != chain[|chain| - 1]
  {
    var j := Run(EMPTY, ops);
    RunKeepsInv(EMPTY, ops, |ops|);
    var k := |chain| - 1;
    assert Caused(j, chain[k - 1], chain[k]);
    var n :| 0 <= n < |j.history| && j.history[n] == chain[k];
    var first := ChainDescends(j, chain, n);
    assert j.history[first].draft.factId != j.history[n].draft.factId;
  }

  lemma {:induction false} AboveIsSlice(rows: seq<FactRecord>, after: nat, n: nat)
    requires n <= |rows| && forall i :: 0 <= i < |rows| ==> rows[i].position == i + 1
    ensures AboveUpTo(rows, after, n) == if after <= n then rows[after..n] else []
  {
    if n > 0 { AboveIsSlice(rows, after, n - 1); }
  }

  function Least(a: nat, b: nat): nat {
    if a <= b then a else b
  }

  lemma TakeOfDrop<T>(s: seq<T>, from: nat, limit: nat)
    requires from + limit <= |s|
    ensures s[from..|s|][..limit] == s[from..from + limit]
  {
  }

  lemma SelectionIsSlice(rows: seq<FactRecord>, after: nat, limit: nat)
    requires forall i :: 0 <= i < |rows| ==> rows[i].position == i + 1
    ensures var above := AboveUpTo(rows, after, |rows|);
            (if |above| <= limit then above else above[..limit])
            == rows[Least(after, |rows|)..Least(Least(after, |rows|) + limit, |rows|)]
  {
    var above := AboveUpTo(rows, after, |rows|);
    AboveIsSlice(rows, after, |rows|);
    if after > |rows| {
      assert above == [];
      assert rows[|rows|..|rows|] == [];
    } else if limit < |above| {
      TakeOfDrop(rows, after, limit);
    }
  }

  /** A read of a reachable journal is a contiguous slice of the stream that starts right after `after`. */
  lemma ReadIsSlice(j: Journal, stream: Name, after: nat, limit: nat)
    requires Inv(j) && NameValid(stream) && 1 <= limit <= MAX_READ
    ensures var rows := Rows(j, stream);
            Read(j, stream, after, limit) == Ok(rows[Least(after, |rows|)..Least(Least(after, |rows|) + limit, |rows|)])
  {
    RowsArePlaced(j, stream);
    SelectionIsSlice(Rows(j, stream), after, limit);
  }
}
