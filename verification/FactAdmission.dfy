/**
 Which batches the fact journal accepts, with every bound written out, and what the
 answer to any other batch carries.
 */
module FactAdmission {
  import opened Wrappers
  import opened Utf8
  import opened FactTypes
  import opened FactJournal
  import opened FactJournalLaws

  // -------------------------------------------------------------------------- names

  /** Some character is no white space, and the text is at most 256 bytes long. */
  predicate IsIdentity(text: string) {
    (exists i :: 0 <= i < |text| && !IsWhitespace(text[i])) && Utf8Length(text) <= 256
  }

  lemma {:induction false} BlankExactlyWhen(s: string, n: nat)
    requires n <= |s|
    ensures BlankUpTo(s, n) <==> forall i :: 0 <= i < n ==> IsWhitespace(s[i])
  {
    if n > 0 { BlankExactlyWhen(s, n - 1); }
  }

  lemma IdentityExactlyWhen(text: string)
    ensures IdentityValid(text) <==> IsIdentity(text)
  {
    BlankExactlyWhen(text, |text|);
  }

  predicate IsPlain(c: char) {
    'a' <= c <= 'z' || 'A' <= c <= 'Z' || '0' <= c <= '9' || c == '_' || c == '-'
  }

  /** A nonempty part of plain characters. */
  predicate IsSegment(part: string) {
    part != "" && forall i :: 0 <= i < |part| ==> IsPlain(part[i])
  }

  predicate AllSegments(parts: seq<string>) {
    forall i :: 0 <= i < |parts| ==> IsSegment(parts[i])
  }

  /** The parts with single dots between them. */
  function Joined(parts: seq<string>): string
    requires parts != []
  {
    if |parts| == 1 then parts[0] else Joined(parts[..|parts| - 1]) + "." + parts[|parts| - 1]
  }

  /** The first `n` characters are these parts; the last part may still be empty. */
  ghost predicate IsSplit(kind: string, n: nat, parts: seq<string>)
    requires n <= |kind|
  {
    && parts != [] && kind[..n] == Joined(parts)
    && AllSegments(parts[..|parts| - 1]) && (parts[|parts| - 1] == "" || IsSegment(parts[|parts| - 1]))
    && (parts[|parts| - 1] == "" <==> n == 0 || kind[n - 1] == '.')
    && (|parts| > 1 <==> '.' in kind[..n])
  }

  lemma JoinedExtends(parts: seq<string>, c: char)
    requires parts != []
    ensures Joined(parts[|parts| - 1 := parts[|parts| - 1] + [c]]) == Joined(parts) + [c]
  {
    var more := parts[|parts| - 1 := parts[|parts| - 1] + [c]];
    if |parts| > 1 {
      assert more[..|parts| - 1] == parts[..|parts| - 1];
      assert Joined(parts[..|parts| - 1]) + "." + (parts[|parts| - 1] + [c]) == Joined(parts) + [c];
    }
  }

  lemma JoinedOpens(parts: seq<string>)
    requires parts != []
    ensures Joined(parts + [""]) == Joined(parts) + "."
  {
    assert (parts + [""])[..|parts|] == parts;
  }

  /** A dot after a nonempty part opens an empty one. */
  lemma SplitAtDot(kind: string, n: nat, earlier: seq<string>) returns (parts: seq<string>)
    requires 0 < n <= |kind| && IsSplit(kind, n - 1, earlier) && kind[n - 1] == '.' && n > 1 && kind[n - 2] != '.'
    ensures IsSplit(kind, n, parts)
  {
    assert kind[..n] == kind[..n - 1] + [kind[n - 1]];
    JoinedOpens(earlier);
    parts := earlier + [""];
    assert parts[..|parts| - 1] == earlier == earlier[..|earlier| - 1] + [earlier[|earlier| - 1]];
  }

  /** A plain character goes to the last part. */
  lemma SplitGrows(kind: string, n: nat, earlier: seq<string>) returns (parts: seq<string>)
    requires 0 < n <= |kind| && IsSplit(kind, n - 1, earlier) && IsPlain(kind[n - 1])
    ensures IsSplit(kind, n, parts)
  {
    var last := |earlier| - 1;
    assert kind[..n] == kind[..n - 1] + [kind[n - 1]];
    JoinedExtends(earlier, kind[n - 1]);
    parts := earlier[last := earlier[last] + [kind[n - 1]]];
    assert parts[..last] == earlier[..last];
  }

  /** Segments so far can be split into parts. */
  lemma {:induction false} SegmentsSplit(kind: string, n: nat) returns (parts: seq<string>)
    requires n <= |kind| && SegmentsUpTo(kind, n)
    ensures IsSplit(kind, n, parts)
  {
    if n == 0 {
      parts := [""];
    } else {
      parts := SegmentsSplit(kind, n - 1);
      if kind[n - 1] == '.' { parts := SplitAtDot(kind, n, parts); } else { parts := SplitGrows(kind, n, parts); }
    }
  }

  lemma {:induction false} SegmentsOfPrefix(kind: string, longer: string, n: nat)
    requires kind <= longer && n <= |kind|
    ensures SegmentsUpTo(longer, n) == SegmentsUpTo(kind, n)
  {
    if n > 0 { SegmentsOfPrefix(kind, longer, n - 1); }
  }

  /** Plain characters after segments are segments. */
  lemma {:induction false} PlainExtends(kind: string, m: nat, n: nat)
    requires m <= n <= |kind| && SegmentsUpTo(kind, m) && forall i :: m <= i < n ==> IsPlain(kind[i])
    ensures SegmentsUpTo(kind, n)
  {
    if m < n { PlainExtends(kind, m, n - 1); }
  }

  lemma {:induction false} JoinedIsSegments(parts: seq<string>)
    requires parts != [] && AllSegments(parts)
    ensures var kind := Joined(parts); SegmentsUpTo(kind, |kind|) && kind != "" && kind[|kind| - 1] != '.'
    ensures |parts| > 1 ==> '.' in Joined(parts)
  {
    var kind, last := Joined(parts), parts[|parts| - 1];
    if |parts| == 1 {
      PlainExtends(kind, 0, |kind|);
    } else {
      var front := Joined(parts[..|parts| - 1]);
      JoinedIsSegments(parts[..|parts| - 1]);
      SegmentsOfPrefix(front, kind, |front|);
      assert kind[|front|] == '.';
      assert SegmentsUpTo(kind, |front| + 1);
      forall i | |front| + 1 <= i < |kind| ensures IsPlain(kind[i]) { assert kind[i] == last[i - |front| - 1]; }
      PlainExtends(kind, |front| + 1, |kind|);
      assert kind[|kind| - 1] == last[|last| - 1];
    }
  }

  /** A kind is at most 256 bytes of two or more nonempty plain parts with single dots between them. */
  ghost predicate IsKind(kind: string) {
    Utf8Length(kind) <= 256 && exists parts :: IsKindOf(kind, parts)
  }

  ghost predicate IsKindOf(kind: string, parts: seq<string>) {
    |parts| >= 2 && AllSegments(parts) && kind == Joined(parts)
  }

  lemma KindExactlyWhen(kind: string)
    ensures KindTextValid(kind) <==> IsKind(kind)
  {
    if KindTextValid(kind) {
      var parts := SegmentsSplit(kind, |kind|);
      assert kind[..|kind|] == kind;
      assert parts == parts[..|parts| - 1] + [parts[|parts| - 1]];
      assert IsKindOf(kind, parts);
    }
    if IsKind(kind) {
      var parts :| IsKindOf(kind, parts);
      JoinedIsSegments(parts);
      PlainStarts(parts);
      IdentityExactlyWhen(kind);
    }
  }

  /** Joined segments begin with a plain character, which is no white space. */
  lemma {:induction false} PlainStarts(parts: seq<string>)
    requires parts != [] && AllSegments(parts)
    ensures Joined(parts) != "" && IsPlain(Joined(parts)[0]) && !IsWhitespace(Joined(parts)[0])
  {
    if |parts| > 1 { PlainStarts(parts[..|parts| - 1]); }
  }

  // ---------------------------------------------------------------------- admission

  /** Derived names and the two kinds of the reservation stream are admissible; any other is by its text. */
  ghost predicate IsNamed(name: Name) {
    match name
    case Plain(text) => IsIdentity(text)
    case _ => true
  }

  ghost predicate IsOfKind(kind: FactKind) {
    match kind
    case OtherKind(text) => IsKind(text)
    case _ => true
  }

  /** A draft without regard to its causes' coordinates. */
  ghost predicate IsWellFormed(draft: FactDraft) {
    && IsNamed(draft.factId) && IsNamed(draft.subject.id) && IsOfKind(draft.subject.kind) && IsOfKind(draft.kind)
    && draft.schemaVersion >= 1 && |draft.causes| <= 32
    && (draft.payload.Json? ==> Utf8Length(draft.payload.text) <= 131072)
  }

  ghost predicate AreCoordinates(causes: seq<FactRef>) {
    forall i :: 0 <= i < |causes| ==> IsCoordinate(causes[i])
  }

  ghost predicate IsCoordinate(cause: FactRef) {
    IsNamed(cause.stream) && IsNamed(cause.factId) && 1 <= cause.position <= 9223372036854775807
  }

  ghost predicate AreDistinct(batch: seq<FactDraft>, n: nat)
    requires n <= |batch|
  {
    forall a, b :: 0 <= a < b < n ==> batch[a].factId != batch[b].factId
  }

  /** One to 64 drafts that end at a 63-bit position. */
  ghost predicate IsSized(stream: Name, expected: nat, batch: seq<FactDraft>) {
    IsNamed(stream) && 1 <= |batch| <= 64 && expected + |batch| <= 9223372036854775807
  }

  ghost predicate AreAdmissible(batch: seq<FactDraft>, n: nat)
    requires n <= |batch|
  {
    AreDistinct(batch, n) && forall i :: 0 <= i < n ==> IsWellFormed(batch[i]) && AreCoordinates(batch[i].causes)
  }

  lemma NameExactlyWhen(name: Name)
    ensures NameValid(name) <==> IsNamed(name)
  {
    if name.Plain? { IdentityExactlyWhen(name.text); }
  }

  lemma DraftExactlyWhen(draft: FactDraft)
    ensures DraftValid(draft) <==> IsWellFormed(draft)
    ensures CausesValid(draft) <==> AreCoordinates(draft.causes)
  {
    NameExactlyWhen(draft.factId);
    NameExactlyWhen(draft.subject.id);
    if draft.kind.OtherKind? { KindExactlyWhen(draft.kind.text); }
    if draft.subject.kind.OtherKind? { KindExactlyWhen(draft.subject.kind.text); }
    forall i | 0 <= i < |draft.causes|
      ensures IsCoordinate(draft.causes[i])
              <==> NameValid(draft.causes[i].stream) && NameValid(draft.causes[i].factId) && 0 < draft.causes[i].position <= I64_MAX
    {
      NameExactlyWhen(draft.causes[i].stream);
      NameExactlyWhen(draft.causes[i].factId);
    }
  }

  /** Draft `n` is the first that is not admissible, and this is why. */
  ghost predicate IsFirstProblem(batch: seq<FactDraft>, n: nat, error: FactError)
    requires n < |batch|
  {
    && AreAdmissible(batch, n)
    && if !IsWellFormed(batch[n]) then error == Invalid
       else if exists i :: 0 <= i < n && batch[i].factId == batch[n].factId then error == Conflict(Some(batch[n].factId))
       else !AreCoordinates(batch[n].causes) && error == Invalid
  }

  lemma {:induction false} ProblemExactlyWhen(batch: seq<FactDraft>, n: nat)
    requires n <= |batch|
    ensures ProblemUpTo(batch, n).None? <==> AreAdmissible(batch, n)
    ensures ProblemUpTo(batch, n).Some? ==> exists k :: 0 <= k < n && IsFirstProblem(batch, k, ProblemUpTo(batch, n).value)
  {
    if n > 0 {
      ProblemExactlyWhen(batch, n - 1);
      DraftExactlyWhen(batch[n - 1]);
      if ProblemUpTo(batch, n - 1).None? && ProblemUpTo(batch, n).Some? {
        assert IsFirstProblem(batch, n - 1, ProblemUpTo(batch, n).value);
      }
    }
  }

  /** What a batch must be for its drafts to be admitted, and what is wrong with any other. */
  lemma AdmittedExactlyWhen(stream: Name, expected: nat, batch: seq<FactDraft>)
    ensures var problem := BatchProblem(stream, expected, batch);
            && (problem.None? <==> IsSized(stream, expected, batch) && AreAdmissible(batch, |batch|))
            && (problem.Some? ==>
                  if IsSized(stream, expected, batch) then exists k :: 0 <= k < |batch| && IsFirstProblem(batch, k, problem.value)
                  else problem.value == Invalid)
  {
    NameExactlyWhen(stream);
    ProblemExactlyWhen(batch, |batch|);
  }

  // ------------------------------------------------------------------------- causes

  /** The cause names, exactly, an earlier draft of the batch or a committed record. */
  ghost predicate IsResolved(j: Journal, stream: Name, expected: nat, batch: seq<FactDraft>, n: nat, cause: FactRef) {
    || (exists i :: 0 <= i < n <= |batch| && cause == FactRef(stream, expected + i + 1, batch[i].factId))
    || (exists h :: 0 <= h < |j.history|
          && cause == FactRef(j.history[h].stream, j.history[h].position, j.history[h].draft.factId))
  }

  /** The first `m` causes of draft `n` are resolved. */
  ghost predicate AreResolved(j: Journal, stream: Name, expected: nat, batch: seq<FactDraft>, n: nat, m: nat)
    requires n < |batch| && m <= |batch[n].causes|
  {
    forall c :: 0 <= c < m ==> IsResolved(j, stream, expected, batch, n, batch[n].causes[c])
  }

  /** The batch is planned next: it is admissible, and none of its identities is committed. */
  ghost predicate IsNew(j: Journal, batch: seq<FactDraft>) {
    AreDistinct(batch, |batch|) && forall i, h :: 0 <= i < |batch| && 0 <= h < |j.history| ==> batch[i].factId != j.history[h].draft.factId
  }

  lemma NewExactlyWhen(j: Journal, batch: seq<FactDraft>)
    requires Inv(j)
    ensures IsNew(j, batch) <==> AreDistinct(batch, |batch|) && !Reuses(j.identities, batch)
  {
    if Reuses(j.identities, batch) {
      var i :| 0 <= i < |batch| && batch[i].factId in j.identities;
      assert Holds(j.history, j.identities[batch[i].factId]);
      var h :| 0 <= h < |j.history| && j.history[h] == j.identities[batch[i].factId];
      assert j.history[h].draft.factId == batch[i].factId;
    }
    if !Reuses(j.identities, batch) {
      forall i, h | 0 <= i < |batch| && 0 <= h < |j.history| ensures batch[i].factId != j.history[h].draft.factId {
        assert batch[i].factId !in j.identities;
        assert j.history[h].draft.factId in j.identities;
      }
    }
  }

  lemma ResolvedExactlyWhen(j: Journal, stream: Name, expected: nat, batch: seq<FactDraft>, n: nat, cause: FactRef)
    requires Inv(j) && IsNew(j, batch) && n <= |batch|
    ensures Resolves(j.identities, Placed(stream, expected, batch), n, cause) <==> IsResolved(j, stream, expected, batch, n, cause)
  {
    var records := Placed(stream, expected, batch);
    var found := FirstInBatch(records, n, cause.factId);
    FirstInBatchIsThere(records, n, cause.factId);
    if found.Some? {
      var i :| 0 <= i < n && records[i] == found.value && records[i].draft.factId == cause.factId;
      assert RefOf(records[i]) == FactRef(stream, expected + i + 1, batch[i].factId);
      assert IsResolved(j, stream, expected, batch, n, cause) ==> RefOf(records[i]) == cause;
    } else {
      CommittedExactlyWhen(j, cause);
      assert forall i :: 0 <= i < n ==> batch[i].factId == records[i].draft.factId;
    }
  }

  /** A committed record is named exactly. */
  lemma CommittedExactlyWhen(j: Journal, cause: FactRef)
    requires Inv(j)
    ensures cause.factId in j.identities && RefOf(j.identities[cause.factId]) == cause
            <==> exists h :: 0 <= h < |j.history|
                   && cause == FactRef(j.history[h].stream, j.history[h].position, j.history[h].draft.factId)
  {
    if cause.factId in j.identities && RefOf(j.identities[cause.factId]) == cause {
      assert Holds(j.history, j.identities[cause.factId]);
      var h :| 0 <= h < |j.history| && j.history[h] == j.identities[cause.factId];
    }
  }

  lemma {:induction false} CausesExactlyWhen(j: Journal, stream: Name, expected: nat, batch: seq<FactDraft>, n: nat, m: nat)
    requires Inv(j) && IsNew(j, batch) && n < |batch| && m <= |batch[n].causes|
    ensures var missing := UnresolvedIn(j.identities, Placed(stream, expected, batch), n, m);
            && (missing.None? <==> AreResolved(j, stream, expected, batch, n, m))
            && (missing.Some? ==> exists c :: 0 <= c < m && IsFirstMissing(j, stream, expected, batch, n, c, missing.value))
  {
    if m > 0 {
      CausesExactlyWhen(j, stream, expected, batch, n, m - 1);
      ResolvedExactlyWhen(j, stream, expected, batch, n, batch[n].causes[m - 1]);
      var records := Placed(stream, expected, batch);
      if UnresolvedIn(j.identities, records, n, m - 1).None? && UnresolvedIn(j.identities, records, n, m).Some? {
        assert IsFirstMissing(j, stream, expected, batch, n, m - 1, batch[n].causes[m - 1].factId);
      }
    }
  }

  /** Cause `c` of draft `n` is the draft's first that is not resolved, and names this fact. */
  ghost predicate IsFirstMissing(j: Journal, stream: Name, expected: nat, batch: seq<FactDraft>, n: nat, c: nat, id: Name)
    requires n < |batch| && c < |batch[n].causes|
  {
    && AreResolved(j, stream, expected, batch, n, c)
    && !IsResolved(j, stream, expected, batch, n, batch[n].causes[c]) && batch[n].causes[c].factId == id
  }

  /** All causes of the first `n` drafts are resolved. */
  ghost predicate AllAreResolved(j: Journal, stream: Name, expected: nat, batch: seq<FactDraft>, n: nat)
    requires n <= |batch|
  {
    forall k :: 0 <= k < n ==> AreResolved(j, stream, expected, batch, k, |batch[k].causes|)
  }

  /** The first unresolved cause of the batch names this fact. */
  ghost predicate IsMissing(j: Journal, stream: Name, expected: nat, batch: seq<FactDraft>, n: nat, id: Name)
    requires n < |batch|
  {
    && AllAreResolved(j, stream, expected, batch, n)
    && exists c :: 0 <= c < |batch[n].causes| && IsFirstMissing(j, stream, expected, batch, n, c, id)
  }

  /** What is missing of a draft is missing of the batch when all earlier drafts are resolved. */
  ghost predicate IsVerdict(j: Journal, stream: Name, expected: nat, batch: seq<FactDraft>, n: nat, missing: Option<Name>)
    requires n <= |batch|
  {
    match missing
    case None => AllAreResolved(j, stream, expected, batch, n)
    case Some(id) => !AllAreResolved(j, stream, expected, batch, n)
                     && exists k :: 0 <= k < n && IsMissing(j, stream, expected, batch, k, id)
  }

  lemma VerdictStep(j: Journal, stream: Name, expected: nat, batch: seq<FactDraft>, n: nat, earlier: Option<Name>, last: Option<Name>)
    requires 0 < n <= |batch| && IsVerdict(j, stream, expected, batch, n - 1, earlier)
    requires last.None? <==> AreResolved(j, stream, expected, batch, n - 1, |batch[n - 1].causes|)
    requires last.Some? && AllAreResolved(j, stream, expected, batch, n - 1) ==> IsMissing(j, stream, expected, batch, n - 1, last.value)
    ensures IsVerdict(j, stream, expected, batch, n, if earlier.Some? then earlier else last)
  {
    if earlier.Some? {
      var k :| 0 <= k < n - 1 && IsMissing(j, stream, expected, batch, k, earlier.value);
    }
    if AllAreResolved(j, stream, expected, batch, n) {
      assert AreResolved(j, stream, expected, batch, n - 1, |batch[n - 1].causes|);
      assert AllAreResolved(j, stream, expected, batch, n - 1);
    }
  }

  lemma {:induction false} BatchExactlyWhen(j: Journal, stream: Name, expected: nat, batch: seq<FactDraft>, n: nat)
    requires Inv(j) && IsNew(j, batch) && n <= |batch|
    ensures IsVerdict(j, stream, expected, batch, n, UnresolvedUpTo(j.identities, Placed(stream, expected, batch), n))
  {
    if n > 0 {
      var records := Placed(stream, expected, batch);
      BatchExactlyWhen(j, stream, expected, batch, n - 1);
      CausesExactlyWhen(j, stream, expected, batch, n - 1, |batch[n - 1].causes|);
      VerdictStep(j, stream, expected, batch, n, UnresolvedUpTo(j.identities, records, n - 1),
                  UnresolvedIn(j.identities, records, n - 1, |batch[n - 1].causes|));
    }
  }

  // ------------------------------------------------------------------- main results

  /** The records a batch becomes: its drafts in order, at the next positions of the stream. */
  ghost predicate AreRecords(stream: Name, expected: nat, batch: seq<FactDraft>, records: seq<FactRecord>) {
    |records| == |batch| && forall i :: 0 <= i < |batch| ==> records[i] == FactRecord(stream, expected + i + 1, batch[i])
  }

  /** The batch continues its stream with new facts whose causes are all earlier ones. */
  ghost predicate Continues(j: Journal, stream: Name, expected: nat, batch: seq<FactDraft>) {
    && IsSized(stream, expected, batch) && AreAdmissible(batch, |batch|) && expected == |Rows(j, stream)|
    && IsNew(j, batch) && AllAreResolved(j, stream, expected, batch, |batch|)
  }

  /**
   A batch that is not a retry is accepted exactly when it continues its stream, and is
   then answered with its drafts at the next positions.
   */
  lemma AcceptedExactlyWhen(j: Journal, stream: Name, expected: nat, batch: seq<FactDraft>)
    requires Inv(j) && (stream, expected) !in j.batches
    ensures Answer(j, stream, expected, batch).Ok? <==> Continues(j, stream, expected, batch)
    ensures Answer(j, stream, expected, batch).Ok? ==> AreRecords(stream, expected, batch, Answer(j, stream, expected, batch).value)
  {
    AdmittedExactlyWhen(stream, expected, batch);
    HeadIsLength(j, stream);
    NewExactlyWhen(j, batch);
    if IsNew(j, batch) { BatchExactlyWhen(j, stream, expected, batch, |batch|); }
  }

  /** What the refusal of a batch that is not a retry carries, in the order of the checks. */
  lemma RefusedWith(j: Journal, stream: Name, expected: nat, batch: seq<FactDraft>)
    requires Inv(j) && (stream, expected) !in j.batches && Answer(j, stream, expected, batch).Err?
    ensures var error := Answer(j, stream, expected, batch).error;
            if !IsSized(stream, expected, batch) then error == Invalid
            else if !AreAdmissible(batch, |batch|) then exists k :: 0 <= k < |batch| && IsFirstProblem(batch, k, error)
            else if !IsNew(j, batch) then error == Conflict(None)
            else if expected != |Rows(j, stream)| then error == StalePosition(expected, |Rows(j, stream)|)
            else error.MissingCause? && exists k :: 0 <= k < |batch| && IsMissing(j, stream, expected, batch, k, error.cause)
  {
    AdmittedExactlyWhen(stream, expected, batch);
    HeadIsLength(j, stream);
    NewExactlyWhen(j, batch);
    if IsNew(j, batch) { BatchExactlyWhen(j, stream, expected, batch, |batch|); }
  }

  /** The second fact of an empty journal's first batch may have the first as its cause. */
  lemma EffectFollowsCause(stream: Name, cause: FactDraft, effect: FactDraft)
    requires IsNamed(stream) && IsWellFormed(cause) && IsWellFormed(effect) && cause.factId != effect.factId
    requires cause.causes == [] && effect.causes == [FactRef(stream, 1, cause.factId)]
    ensures Answer(EMPTY, stream, 0, [cause, effect]) == Ok([FactRecord(stream, 1, cause), FactRecord(stream, 2, effect)])
    ensures After(EMPTY, stream, 0, [cause, effect]).history == [FactRecord(stream, 1, cause), FactRecord(stream, 2, effect)]
  {
    var batch := [cause, effect];
    assert IsCoordinate(effect.causes[0]);
    assert effect.causes[0] == FactRef(stream, 0 + 0 + 1, batch[0].factId);
    AcceptedExactlyWhen(EMPTY, stream, 0, batch);
    assert Continues(EMPTY, stream, 0, batch);
    assert Answer(EMPTY, stream, 0, batch).value == [FactRecord(stream, 1, cause), FactRecord(stream, 2, effect)];
  }

  /** A read is refused exactly for an inadmissible stream or a limit outside 1 to 1024. */
  lemma ReadableExactlyWhen(j: Journal, stream: Name, after: nat, limit: nat)
    ensures Read(j, stream, after, limit).Ok? <==> IsNamed(stream) && 1 <= limit <= 1024
    ensures Read(j, stream, after, limit).Err? ==> Read(j, stream, after, limit).error == Invalid
  {
    NameExactlyWhen(stream);
  }
}
