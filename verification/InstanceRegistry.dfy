/**
 Durable instance reservations over a shared journal: a validated paged replay
 and a bounded compare-and-append retry loop, with every journal operation a
 separate step before which other writers may commit.
 */
module InstanceRegistry {
  import opened Wrappers
  import opened FactTypes
  import opened FactJournal
  import opened FactJournalLaws

  const MAX_RESERVATIONS: nat := 65536
  const MAX_CAS_ATTEMPTS: nat := 32
  const PAGE_SIZE: nat := 256

  datatype Proof = Proven(instance: Name, fact: FactRef)

  datatype RegistryError =
    | JournalFailure(error: FactError)
    | InvalidAdmission
    | UnknownSchema(version: nat)
    | Corrupt
    | ConflictingOwner(instance: Name)
    | Capacity
    | Contention

  /** A registry's host and its ceiling. */
  datatype Config = Config(host: string, capacity: nat) {
    function Stream(): Name { InstanceStream(host) }
    function InstanceAt(position: nat): Name { InstanceName(host, position) }
    function FactOf(owner: InstanceOwner): Name { ReservationFact(host, owner) }

    /** The proof a reservation at this position gives its owner. */
    function ProofAt(owner: InstanceOwner, position: nat): Proof {
      Proven(InstanceAt(position), FactRef(Stream(), position, FactOf(owner)))
    }

    function DraftFor(owner: InstanceOwner, position: nat): FactDraft {
      FactDraft(FactOf(owner), FactSubject(AgentInstance, InstanceAt(position)), InstanceReserved, 1, true, [],
                FactPayload.Reservation(FactTypes.Reserved(host, owner, InstanceAt(position))))
    }
  }

  predicate HasControl(s: string) {
    exists i :: 0 <= i < |s| && (s[i] as int < 0x20 || 0x7F <= s[i] as int < 0xA0)
  }

  predicate CoordinateValid(s: string) {
    IdentityValid(s) && !HasControl(s)
  }

  /** Nonempty, bounded, control-free coordinates. */
  predicate OwnerValid(owner: InstanceOwner) {
    CoordinateValid(owner.sessionId) && CoordinateValid(owner.taskId) && CoordinateValid(owner.invocationId)
  }

  // ------------------------------------------------------------------ replay

  datatype Replay = Replay(head: nat, owners: map<InstanceOwner, Proof>, instances: map<Name, InstanceOwner>)

  /** Validate one record and add it to the replay. */
  function Replayed(config: Config, s: Replay, record: FactRecord): Result<Replay, RegistryError> {
    var draft := record.draft;
    if |s.owners| >= config.capacity then Err(Capacity)
    else if record.stream != config.Stream() || record.position != s.head + 1 then Err(Corrupt)
    else if draft.schemaVersion != 1 then Err(UnknownSchema(draft.schemaVersion))
    else if draft.kind != InstanceReserved || !draft.critical || draft.causes != [] then Err(Corrupt)
    else if !draft.payload.Reservation? then Err(Corrupt)
    else
      var r := draft.payload.reserved;
      if !OwnerValid(r.owner) then Err(Corrupt)
      else if r.instance in s.instances && s.instances[r.instance] != r.owner then Err(ConflictingOwner(r.instance))
      else if r.host != config.host || r.instance != config.InstanceAt(record.position)
              || draft.subject.kind != AgentInstance || draft.subject.id != r.instance
              || draft.factId != config.FactOf(r.owner)
      then Err(Corrupt)
      else if r.owner in s.owners then Err(Corrupt)
      else
        var proof := Proven(r.instance, FactRef(record.stream, record.position, draft.factId));
        Ok(Replay(record.position, s.owners[r.owner := proof], s.instances[r.instance := r.owner]))
  }

  function Continued(config: Config, earlier: Result<Replay, RegistryError>, record: FactRecord): Result<Replay, RegistryError> {
    if earlier.Err? then earlier else Replayed(config, earlier.value, record)
  }

  /** The replay of the first `n` records; the first refusal stands. */
  function ReplayUpTo(config: Config, rows: seq<FactRecord>, n: nat): Result<Replay, RegistryError>
    requires n <= |rows|
  {
    if n == 0 then Ok(Replay(0, map[], map[])) else Continued(config, ReplayUpTo(config, rows, n - 1), rows[n - 1])
  }

  /** What a load of this journal answers. */
  function Loaded(config: Config, j: Journal): Result<Replay, RegistryError> {
    var rows := Rows(j, config.Stream());
    ReplayUpTo(config, rows, |rows|)
  }

  /** This is what a load of this journal answers. */
  ghost predicate IsLoad(config: Config, j: Journal, r: Result<Replay, RegistryError>) {
    r == Loaded(config, j)
  }

  lemma {:induction false} ReplayIsStable(config: Config, rows: seq<FactRecord>, longer: seq<FactRecord>, n: nat)
    requires rows <= longer && n <= |rows|
    ensures ReplayUpTo(config, longer, n) == ReplayUpTo(config, rows, n)
  {
    if n > 0 {
      ReplayIsStable(config, rows, longer, n - 1);
      assert longer[n - 1] == rows[n - 1];
    }
  }

  lemma {:induction false} RefusalStands(config: Config, rows: seq<FactRecord>, n: nat, m: nat)
    requires n <= m <= |rows| && ReplayUpTo(config, rows, n).Err?
    ensures ReplayUpTo(config, rows, m) == ReplayUpTo(config, rows, n)
  {
    if n < m { RefusalStands(config, rows, n, m - 1); }
  }

  /** The `i`-th row is a valid reservation of this owner at its position. */
  ghost predicate ReservesAt(config: Config, rows: seq<FactRecord>, i: int, owner: InstanceOwner) {
    0 <= i < |rows| && RefOf(rows[i]) == config.ProofAt(owner, i + 1).fact
  }

  /** The owner has this proof because of one of the first `n` rows. */
  ghost predicate ReservedWithin(config: Config, rows: seq<FactRecord>, n: nat, owner: InstanceOwner, proof: Proof) {
    exists i :: 0 <= i < n && ReservesAt(config, rows, i, owner) && proof == config.ProofAt(owner, i + 1)
  }

  /** One reservation per row and one row per owner. */
  ghost predicate Faithful(config: Config, rows: seq<FactRecord>, n: nat, s: Replay) {
    && s.head == n && |s.owners| == n && (n > 0 ==> n <= config.capacity)
    && (forall o :: o in s.owners ==> ReservedWithin(config, rows, n, o, s.owners[o]))
    && (forall i, o :: 0 <= i < n && ReservesAt(config, rows, i, o) ==> o in s.owners && s.owners[o] == config.ProofAt(o, i + 1))
  }

  /** An accepted record adds one owner, at the next position. */
  lemma ReplayedAdds(config: Config, s: Replay, record: FactRecord) returns (owner: InstanceOwner)
    requires Replayed(config, s, record).Ok?
    ensures var after := Replayed(config, s, record).value;
            && owner !in s.owners && |s.owners| < config.capacity
            && RefOf(record) == config.ProofAt(owner, s.head + 1).fact
            && after.head == s.head + 1
            && after.owners == s.owners[owner := config.ProofAt(owner, s.head + 1)]
  {
    owner := record.draft.payload.reserved.owner;
  }

  lemma AddedIsFaithful(config: Config, rows: seq<FactRecord>, n: nat, before: Replay, after: Replay, owner: InstanceOwner)
    requires 0 < n <= |rows| && Faithful(config, rows, n - 1, before)
    requires owner !in before.owners && |before.owners| < config.capacity
    requires ReservesAt(config, rows, n - 1, owner)
    requires after.head == n && after.owners == before.owners[owner := config.ProofAt(owner, n)]
    ensures Faithful(config, rows, n, after)
  {
    forall o | o in after.owners ensures ReservedWithin(config, rows, n, o, after.owners[o]) {
      if o != owner {
        assert ReservedWithin(config, rows, n - 1, o, before.owners[o]);
      } else {
        assert ReservesAt(config, rows, n - 1, owner);
      }
    }
  }

  /** What an accepted replay knows. */
  lemma {:induction false} ReplayIsFaithful(config: Config, rows: seq<FactRecord>, n: nat)
    requires n <= |rows| && ReplayUpTo(config, rows, n).Ok?
    ensures Faithful(config, rows, n, ReplayUpTo(config, rows, n).value)
  {
    if n > 0 {
      ReplayIsFaithful(config, rows, n - 1);
      var before := ReplayUpTo(config, rows, n - 1).value;
      var owner := ReplayedAdds(config, before, rows[n - 1]);
      AddedIsFaithful(config, rows, n, before, ReplayUpTo(config, rows, n).value, owner);
    }
  }

  /** A replay in progress: it accounts for a prefix of the stream, one owner a row. */
  ghost predicate Replays(config: Config, j: Journal, s: Replay) {
    && s.head <= |Rows(j, config.Stream())|
    && ReplayUpTo(config, Rows(j, config.Stream()), s.head) == Ok(s)
    && |s.owners| == s.head <= config.capacity
  }

  lemma NothingReplayed(config: Config, j: Journal)
    ensures Replays(config, j, Replay(0, map[], map[]))
  {
  }

  lemma ReplayStep(config: Config, j: Journal, s: Replay)
    requires Replays(config, j, s) && s.head < |Rows(j, config.Stream())|
    ensures var r := Replayed(config, s, Rows(j, config.Stream())[s.head]);
            if r.Err? then r == Loaded(config, j) else Replays(config, j, r.value) && r.value.head == s.head + 1
  {
    var rows := Rows(j, config.Stream());
    if ReplayUpTo(config, rows, s.head + 1).Err? {
      RefusalStands(config, rows, s.head + 1, |rows|);
    } else {
      ReplayIsFaithful(config, rows, s.head + 1);
    }
  }

  // ------------------------------------------------------- identity of owners

  /** A reservation proof that a load of this journal gives this owner. */
  ghost predicate HeldBy(config: Config, j: Journal, owner: InstanceOwner, proof: Proof) {
    IsHeld(config, j, owner) && Loaded(config, j).value.owners[owner] == proof
  }

  ghost predicate IsHeld(config: Config, j: Journal, owner: InstanceOwner) {
    Loaded(config, j).Ok? && owner in Loaded(config, j).value.owners
  }

  /**
   Two owners that ever hold proofs, at any two moments of one journal's life and
   whatever else was committed, hold the same instance exactly when they are the
   same owner, and then the whole proof is the same.
   */
  lemma InstancesIdentifyOwners(config: Config, j: Journal, later: Journal,
                                a: InstanceOwner, p: Proof, b: InstanceOwner, q: Proof)
    requires Inv(j) && Inv(later) && Extends(j, later)
    requires HeldBy(config, j, a, p) && HeldBy(config, later, b, q)
    ensures a == b <==> p.instance == q.instance
    ensures a == b <==> p == q
  {
    var rows, more := Rows(j, config.Stream()), Rows(later, config.Stream());
    RowsExtend(config, j, later);
    var i := PositionOf(config, rows, a, p);
    var k := PositionOf(config, more, b, q);
    OwnersByPosition(config, more, a, i, b, k);
  }

  /** The row a proof comes from. */
  lemma PositionOf(config: Config, rows: seq<FactRecord>, owner: InstanceOwner, proof: Proof) returns (i: nat)
    requires ReplayUpTo(config, rows, |rows|).Ok?
    requires owner in ReplayUpTo(config, rows, |rows|).value.owners
    requires ReplayUpTo(config, rows, |rows|).value.owners[owner] == proof
    ensures ReservesAt(config, rows, i, owner) && proof == config.ProofAt(owner, i + 1)
  {
    ReplayIsFaithful(config, rows, |rows|);
    assert ReservedWithin(config, rows, |rows|, owner, proof);
    i :| 0 <= i < |rows| && ReservesAt(config, rows, i, owner) && proof == config.ProofAt(owner, i + 1);
  }

  lemma OwnersByPosition(config: Config, rows: seq<FactRecord>, a: InstanceOwner, i: nat, b: InstanceOwner, k: nat)
    requires ReplayUpTo(config, rows, |rows|).Ok?
    requires ReservesAt(config, rows, i, a) && ReservesAt(config, rows, k, b)
    ensures a == b <==> i == k
  {
    ReplayIsFaithful(config, rows, |rows|);
    assert ReplayUpTo(config, rows, |rows|).value.owners[a] == config.ProofAt(a, i + 1);
  }

  /** An owner that once held a proof is found by every later load that is not refused. */
  lemma HeldIsFound(config: Config, j: Journal, later: Journal, owner: InstanceOwner)
    requires Extends(j, later) && IsHeld(config, j, owner) && Loaded(config, later).Ok?
    ensures IsHeld(config, later, owner)
  {
    var rows, more := Rows(j, config.Stream()), Rows(later, config.Stream());
    RowsExtend(config, j, later);
    var i := PositionOf(config, rows, owner, Loaded(config, j).value.owners[owner]);
    ReplayIsFaithful(config, more, |more|);
    assert ReservesAt(config, more, i, owner);
  }

  // ---------------------------------------------------------------- capacity

  /** The append `reserve` issues: one draft, right after a head below capacity. */
  predicate Conforms(config: Config, op: Op) {
    op.stream == config.Stream() ==> op.expected + |op.batch| <= config.capacity
  }

  lemma ConformingKeepsCapacity(config: Config, j: Journal, op: Op)
    requires Inv(j) && Conforms(config, op) && |Rows(j, config.Stream())| <= config.capacity
    ensures |Rows(After(j, op.stream, op.expected, op.batch), config.Stream())| <= config.capacity
  {
    var answer := Answer(j, op.stream, op.expected, op.batch);
    if answer.Ok? && (op.stream, op.expected) !in j.batches {
      NewBatchCommits(j, op.stream, op.expected, op.batch);
    }
  }

  /** Over every interleaving of conforming appends the stream never exceeds its capacity. */
  lemma {:induction false} CapacityIsKept(config: Config, j: Journal, ops: seq<Op>, n: nat)
    requires Inv(j) && n <= |ops| && |Rows(j, config.Stream())| <= config.capacity
    requires forall i :: 0 <= i < |ops| ==> Conforms(config, ops[i])
    ensures |Rows(RunUpTo(j, ops, n), config.Stream())| <= config.capacity
  {
    if n > 0 {
      CapacityIsKept(config, j, ops, n - 1);
      RunKeepsInv(j, ops, n - 1);
      ConformingKeepsCapacity(config, RunUpTo(j, ops, n - 1), ops[n - 1]);
    }
  }

  // ------------------------------------------------------------- other writers

  function Turn(others: seq<seq<Op>>, k: nat): seq<Op> {
    if k < |others| then others[k] else []
  }

  /** The journal after the other writers' turns `from` up to `to`. */
  function AfterTurns(j: Journal, others: seq<seq<Op>>, first: nat, past: nat): Journal
    requires first <= past
    decreases past
  {
    if first == past then j else Run(AfterTurns(j, others, first, past - 1), Turn(others, past - 1))
  }

  /** From one view of the journal to a later one: sound, nothing lost, and within capacity if all conform. */
  ghost predicate Advances(config: Config, others: seq<seq<Op>>, j: Journal, later: Journal) {
    && Inv(later) && Extends(j, later)
    && ((forall k, i :: 0 <= k < |others| && 0 <= i < |others[k]| ==> Conforms(config, others[k][i]))
        && |Rows(j, config.Stream())| <= config.capacity
        ==> |Rows(later, config.Stream())| <= config.capacity)
  }

  lemma AdvancesTwice(config: Config, others: seq<seq<Op>>, a: Journal, b: Journal, c: Journal)
    requires Advances(config, others, a, b) && Advances(config, others, b, c)
    ensures Advances(config, others, a, c)
  {
    ExtendsTwice(a, b, c);
  }

  /** The other writers' turns `first` up to `past`, and nothing else, lead from one view to the other. */
  ghost predicate Ran(config: Config, others: seq<seq<Op>>, j: Journal, first: nat, later: Journal, past: nat) {
    first <= past && later == AfterTurns(j, others, first, past) && Advances(config, others, j, later)
  }

  lemma RanNothing(config: Config, others: seq<seq<Op>>, j: Journal, turn: nat)
    requires Inv(j)
    ensures Ran(config, others, j, turn, j, turn)
  {
  }

  lemma RanTwice(config: Config, others: seq<seq<Op>>, a: Journal, i: nat, b: Journal, k: nat, c: Journal, m: nat)
    requires Ran(config, others, a, i, b, k) && Ran(config, others, b, k, c, m)
    ensures Ran(config, others, a, i, c, m)
  {
    AdvancesTwice(config, others, a, b, c);
    AfterTurnsSplit(a, others, i, k, m);
  }

  lemma TurnAdvances(config: Config, others: seq<seq<Op>>, j: Journal, k: nat)
    requires Inv(j)
    ensures Ran(config, others, j, k, Run(j, Turn(others, k)), k + 1)
  {
    assert AfterTurns(j, others, k, k) == j;
    var ops := Turn(others, k);
    RunKeepsInv(j, ops, |ops|);
    RunExtends(j, ops, |ops|);
    if (forall k, i :: 0 <= k < |others| && 0 <= i < |others[k]| ==> Conforms(config, others[k][i]))
       && |Rows(j, config.Stream())| <= config.capacity
    {
      CapacityIsKept(config, j, ops, |ops|);
    }
  }

  // ------------------------------------------------- a reservation left alone

  /** What a reservation comes to when nobody else writes. */
  function Undisturbed(config: Config, j: Journal, owner: InstanceOwner): Result<Proof, RegistryError> {
    var loaded := Loaded(config, j);
    if loaded.Err? then Err(loaded.error)
    else if owner in loaded.value.owners then Ok(loaded.value.owners[owner])
    else if |loaded.value.owners| >= config.capacity then Err(Capacity)
    else if config.FactOf(owner) in j.identities then Err(JournalFailure(Conflict(None)))
    else Ok(config.ProofAt(owner, |Rows(j, config.Stream())| + 1))
  }

  lemma {:induction false} QuietTurns(j: Journal, others: seq<seq<Op>>, first: nat, past: nat)
    requires |others| <= first <= past
    ensures AfterTurns(j, others, first, past) == j
    decreases past
  {
    if first < past { QuietTurns(j, others, first, past - 1); }
  }

  /** A new reservation's draft is admissible. */
  lemma DraftIsAdmissible(config: Config, owner: InstanceOwner, position: nat)
    requires position < MAX_RESERVATIONS
    ensures BatchProblem(config.Stream(), position, [config.DraftFor(owner, position + 1)]).None?
  {
    var batch := [config.DraftFor(owner, position + 1)];
    assert ProblemUpTo(batch, 0).None?;
    assert ProblemUpTo(batch, 1).None?;
  }

  /** At the head of its stream the draft is refused only if its fact id is taken. */
  lemma HeadAppendAnswers(config: Config, j: Journal, owner: InstanceOwner)
    requires Inv(j) && |Rows(j, config.Stream())| < MAX_RESERVATIONS
    ensures var position := |Rows(j, config.Stream())|;
            var batch := [config.DraftFor(owner, position + 1)];
            && (config.Stream(), position) !in j.batches
            && Answer(j, config.Stream(), position, batch)
               == if config.FactOf(owner) in j.identities then Err(Conflict(None)) else Ok(Placed(config.Stream(), position, batch))
  {
    var stream, position := config.Stream(), |Rows(j, config.Stream())|;
    var batch := [config.DraftFor(owner, position + 1)];
    DraftIsAdmissible(config, owner, position);
    HeadIsLength(j, stream);
    if (stream, position) in j.batches { assert false; }
    assert batch[0].factId == config.FactOf(owner);
    var records := Placed(stream, position, batch);
    assert UnresolvedUpTo(j.identities, records, 0).None?;
    assert UnresolvedIn(j.identities, records, 0, 0).None?;
  }

  /** Instances are known by the positions of accepted rows. */
  lemma {:induction false} InstancesAreEarlier(config: Config, rows: seq<FactRecord>, n: nat)
    requires n <= |rows| && ReplayUpTo(config, rows, n).Ok?
    ensures forall i :: i in ReplayUpTo(config, rows, n).value.instances ==> i.InstanceName? && i.position <= n
  {
    if n > 0 {
      InstancesAreEarlier(config, rows, n - 1);
      ReplayIsFaithful(config, rows, n - 1);
    }
  }

  function NewRecord(config: Config, owner: InstanceOwner, position: nat): FactRecord {
    FactRecord(config.Stream(), position, config.DraftFor(owner, position))
  }

  /** The replay accepts the record of a new reservation. */
  lemma NewRecordIsAccepted(config: Config, s: Replay, owner: InstanceOwner)
    requires OwnerValid(owner) && owner !in s.owners && |s.owners| < config.capacity
    requires forall i :: i in s.instances ==> i.InstanceName? && i.position <= s.head
    ensures var r := Replayed(config, s, NewRecord(config, owner, s.head + 1));
            r.Ok? && r.value.owners == s.owners[owner := config.ProofAt(owner, s.head + 1)]
  {
  }

  lemma NewRecordIsReplayed(config: Config, rows: seq<FactRecord>, owner: InstanceOwner)
    requires var r := ReplayUpTo(config, rows, |rows|);
             r.Ok? && owner !in r.value.owners && |r.value.owners| < config.capacity
    requires OwnerValid(owner)
    ensures var more := rows + [NewRecord(config, owner, |rows| + 1)];
            var r := ReplayUpTo(config, more, |more|);
            r.Ok? && owner in r.value.owners && r.value.owners[owner] == config.ProofAt(owner, |rows| + 1)
  {
    var record := NewRecord(config, owner, |rows| + 1);
    ReplayIsStable(config, rows, rows + [record], |rows|);
    ReplayIsFaithful(config, rows, |rows|);
    InstancesAreEarlier(config, rows, |rows|);
    NewRecordIsAccepted(config, ReplayUpTo(config, rows, |rows|).value, owner);
    assert (rows + [record])[|rows|] == record;
  }

  /** A reservation made alone at a free head is what the next load gives its owner. */
  lemma CommittedIsLoaded(config: Config, j: Journal, owner: InstanceOwner)
    requires Inv(j) && OwnerValid(owner) && Loaded(config, j).Ok? && config.FactOf(owner) !in j.identities
    requires owner !in Loaded(config, j).value.owners && |Loaded(config, j).value.owners| < config.capacity <= MAX_RESERVATIONS
    ensures var position := |Rows(j, config.Stream())|;
            var t := After(j, config.Stream(), position, [config.DraftFor(owner, position + 1)]);
            HeldBy(config, t, owner, config.ProofAt(owner, position + 1))
  {
    var rows := Rows(j, config.Stream());
    var batch := [config.DraftFor(owner, |rows| + 1)];
    LoadedIsFaithful(config, j);
    HeadAppendAnswers(config, j, owner);
    NewBatchCommits(j, config.Stream(), |rows|, batch);
    assert Placed(config.Stream(), |rows|, batch) == [NewRecord(config, owner, |rows| + 1)];
    NewRecordIsReplayed(config, rows, owner);
  }

  // ------------------------------------------------------------------- the class

  class Registry {
    const journal: MemoryFactJournal
    const config: Config
    /** What other writers do: `others[k]` before this registry's `k`-th journal operation. */
    const others: seq<seq<Op>>
    var turn: nat

    ghost predicate Valid()
      reads this, journal
    {
      1 <= config.capacity <= MAX_RESERVATIONS && Inv(journal.View())
    }

    constructor (journal: MemoryFactJournal, config: Config, others: seq<seq<Op>>)
      requires 1 <= config.capacity <= 65536 && Inv(journal.View())
      ensures Valid() && this.journal == journal && this.config == config && this.others == others && turn == 0
    {
      this.journal, this.config, this.others, this.turn := journal, config, others, 0;
    }

    method Interfere()
      requires Valid()
      modifies this, journal
      ensures Valid() && turn == old(turn) + 1
      ensures Ran(config, others, old(journal.View()), old(turn), journal.View(), turn)
    {
      TurnAdvances(config, others, journal.View(), turn);
      var ops := Turn(others, turn);
      turn := turn + 1;
      var i := 0;
      while i < |ops|
        invariant 0 <= i <= |ops|
        invariant turn == old(turn) + 1
        invariant journal.View() == RunUpTo(old(journal.View()), ops, i)
      {
        var _ := journal.Append(ops[i].stream, ops[i].expected, ops[i].batch);
        i := i + 1;
      }
    }

    /** Add one page of records to the replay. */
    method ReplayPage(ghost j: Journal, s: Replay, page: seq<FactRecord>) returns (r: Result<Replay, RegistryError>)
      requires Replays(config, j, s) && IsNextPage(Rows(j, config.Stream()), s.head, page)
      ensures r.Ok? ==> Replays(config, j, r.value) && r.value.head == s.head + |page|
      ensures r.Err? || page == [] ==> IsLoad(config, j, r)
    {
      r := Ok(s);
      var i := 0;
      while i < |page|
        invariant 0 <= i <= |page|
        invariant r.Ok? && Replays(config, j, r.value) && r.value.head == s.head + i
        invariant i == 0 ==> r == Ok(s)
      {
        assert page[i] == Rows(j, config.Stream())[r.value.head];
        ReplayStep(config, j, r.value);
        r := Replayed(config, r.value, page[i]);
        if r.Err? {
          return;
        }
        i := i + 1;
      }
    }

    /** Others write, then one page is read: the rows after `head`, and none only if there are none. */
    method ReadPage(head: nat, limit: nat) returns (page: seq<FactRecord>)
      requires Valid() && head <= |Rows(journal.View(), config.Stream())| && 1 <= limit <= PAGE_SIZE
      modifies this, journal
      ensures Valid() && turn == old(turn) + 1
      ensures Ran(config, others, old(journal.View()), old(turn), journal.View(), turn)
      ensures IsNextPage(Rows(journal.View(), config.Stream()), head, page) && |page| <= limit
    {
      ghost var before := journal.View();
      Interfere();
      RowsExtend(config, before, journal.View());
      NextPageIsRead(config, journal.View(), head, limit);
      var answer := journal.ReadRecords(config.Stream(), head, limit);
      page := answer.value;
    }

    /** Read and replay one more page. */
    method LoadPage(s: Replay) returns (r: Result<Replay, RegistryError>)
      requires Valid() && Replays(config, journal.View(), s)
      modifies this, journal
      ensures Valid() && turn == old(turn) + 1
      ensures Ran(config, others, old(journal.View()), old(turn), journal.View(), turn)
      ensures r.Ok? ==> Replays(config, journal.View(), r.value) && s.head <= r.value.head
      ensures r.Err? || r.value.head == s.head ==> IsLoad(config, journal.View(), r)
    {
      var room := config.capacity + 1 - |s.owners|;
      var page := ReadPage(s.head, if PAGE_SIZE <= room then PAGE_SIZE else room);
      ReplayAdvances(config, others, old(journal.View()), journal.View(), s);
      r := ReplayPage(journal.View(), s, page);
    }

    /**
     Replay the whole stream page by page. The answer is the replay of the
     journal as it stands when the load returns, although others committed
     between its pages.
     */
    method Load() returns (r: Result<Replay, RegistryError>)
      requires Valid()
      modifies this, journal
      ensures Valid()
      ensures IsLoad(config, journal.View(), r)
      ensures Ran(config, others, old(journal.View()), old(turn), journal.View(), turn)
    {
      ghost var start := journal.View();
      var s := Replay(0, map[], map[]);
      RanNothing(config, others, start, turn);
      NothingReplayed(config, start);
      while true
        invariant Valid()
        invariant Ran(config, others, start, old(turn), journal.View(), turn)
        invariant Replays(config, journal.View(), s)
        decreases config.capacity - s.head
      {
        ghost var before, turnBefore := journal.View(), turn;
        r := LoadPage(s);
        RanTwice(config, others, start, old(turn), before, turnBefore, journal.View(), turn);
        if r.Err? || r.value.head == s.head {
          return;
        }
        s := r.value;
      }
    }

    /** Others write, then this registry appends one batch. */
    method TryAppend(expected: nat, draft: FactDraft) returns (r: Result<seq<FactRecord>, FactError>)
      requires Valid() && expected < config.capacity
      modifies this, journal
      ensures Valid() && turn == old(turn) + 1
      ensures Appends(config, AfterTurns(old(journal.View()), others, old(turn), turn), expected, draft, r, journal.View())
      ensures r.Err? ==> Ran(config, others, old(journal.View()), old(turn), journal.View(), turn)
      ensures Advances(config, others, old(journal.View()), journal.View())
    {
      Interfere();
      ghost var before := journal.View();
      AppendKeepsInv(before, config.Stream(), expected, [draft]);
      AppendExtends(before, config.Stream(), expected, [draft]);
      if |Rows(before, config.Stream())| <= config.capacity {
        ConformingKeepsCapacity(config, before, Op(config.Stream(), expected, [draft]));
      }
      r := journal.Append(config.Stream(), expected, [draft]);
      AdvancesTwice(config, others, old(journal.View()), before, journal.View());
    }

    /**
     Reserve an instance for an owner. A proof is one that a load of the journal
     gives the owner at the moment the call returns. Contention means that the
     call committed nothing while others committed at least 32 facts.
     */
    method Reserve(owner: InstanceOwner) returns (r: Result<Proof, RegistryError>)
      requires Valid()
      modifies this, journal
      ensures Valid() && old(turn) <= turn
      ensures Advances(config, others, old(journal.View()), journal.View())
      ensures !OwnerValid(owner) ==> r == Err(InvalidAdmission) && journal.View() == old(journal.View())
      ensures r.Ok? ==> HeldBy(config, journal.View(), owner, r.value)
      ensures OwnerValid(owner) && IsHeld(config, old(journal.View()), owner) ==>
                r.Ok? || Loaded(config, journal.View()) == Err(r.error)
      ensures OwnerValid(owner) && |others| <= old(turn) ==> r == Undisturbed(config, old(journal.View()), owner)
      ensures r == Err(Contention) ==>
                && |Rows(journal.View(), config.Stream())| >= |Rows(old(journal.View()), config.Stream())| + 32
                && Ran(config, others, old(journal.View()), old(turn), journal.View(), turn)
      ensures r == Err(Capacity) ==> |Rows(journal.View(), config.Stream())| >= config.capacity
    {
      ghost var start := journal.View();
      RanNothing(config, others, start, turn);
      if !OwnerValid(owner) {
        return Err(InvalidAdmission);
      }
      ghost var held := IsHeld(config, start, owner);
      var attempt := 0;
      while attempt < MAX_CAS_ATTEMPTS
        invariant 0 <= attempt <= MAX_CAS_ATTEMPTS
        invariant held || |others| <= old(turn) ==> attempt == 0 && journal.View() == start && turn == old(turn)
        invariant Valid() && Ran(config, others, start, old(turn), journal.View(), turn)
        invariant |Rows(journal.View(), config.Stream())| >= |Rows(start, config.Stream())| + attempt
      {
        ghost var before, turnBefore := journal.View(), turn;
        var outcome := Attempt(owner);
        AdvancesTwice(config, others, start, before, journal.View());
        if outcome.Some? {
          return outcome.value;
        }
        RanTwice(config, others, start, old(turn), before, turnBefore, journal.View(), turn);
        RowsExtend(config, before, journal.View());
        attempt := attempt + 1;
      }
      return Err(Contention);
    }

    /** One attempt: an answer, or none when others made progress and the call committed nothing. */
    method Attempt(owner: InstanceOwner) returns (r: Option<Result<Proof, RegistryError>>)
      requires Valid() && OwnerValid(owner)
      modifies this, journal
      ensures Valid() && old(turn) <= turn
      ensures Advances(config, others, old(journal.View()), journal.View())
      ensures IsAttempt(r, owner, old(journal.View()), old(turn))
      ensures IsHeld(config, old(journal.View()), owner) ==>
                r.Some? && (r.value.Ok? || Loaded(config, journal.View()) == Err(r.value.error))
      ensures |others| <= old(turn) ==> r == Some(Undisturbed(config, old(journal.View()), owner))
    {
      ghost var start, startTurn := journal.View(), turn;
      var loaded := Load();
      ghost var first, firstTurn := journal.View(), turn;
      LoadRefusals(config, first);
      RowsExtend(config, start, first);
      if |others| <= startTurn { QuietTurns(start, others, startTurn, turn); }
      if loaded.Err? {
        return Some(Err(loaded.error));
      }
      var s := loaded.value;
      LoadedIsFaithful(config, first);
      if IsHeld(config, start, owner) {
        HeldIsFound(config, start, first, owner);
      }
      if owner in s.owners {
        return Some(Ok(s.owners[owner]));
      }
      if |s.owners| >= config.capacity {
        return Some(Err(Capacity));
      }
      r := Contend(owner, s);
      AdvancesTwice(config, others, start, first, journal.View());
      if r.None? {
        RanTwice(config, others, start, startTurn, first, firstTurn, journal.View(), turn);
      }
    }

    /** What every attempt keeps to, whatever others do. */
    ghost predicate IsAttempt(r: Option<Result<Proof, RegistryError>>, owner: InstanceOwner, start: Journal, startTurn: nat)
      reads this, journal
    {
      && (r.Some? && r.value.Ok? ==> HeldBy(config, journal.View(), owner, r.value.value))
      && (r == Some(Err(Capacity)) ==> |Rows(journal.View(), config.Stream())| >= config.capacity)
      && r != Some(Err(Contention))
      && (r.None? ==>
            && Ran(config, others, start, startTurn, journal.View(), turn)
            && |Rows(journal.View(), config.Stream())| > |Rows(start, config.Stream())|)
    }

    /** Append a reservation after what was loaded, and load again. */
    method Contend(owner: InstanceOwner, s: Replay) returns (r: Option<Result<Proof, RegistryError>>)
      requires Valid() && OwnerValid(owner) && IsLoad(config, journal.View(), Ok(s))
      requires owner !in s.owners && |s.owners| < config.capacity
      modifies this, journal
      ensures Valid() && old(turn) <= turn
      ensures Advances(config, others, old(journal.View()), journal.View())
      ensures IsAttempt(r, owner, old(journal.View()), old(turn))
      ensures |others| <= old(turn) ==> r == Some(Undisturbed(config, old(journal.View()), owner))
    {
      ghost var start, startTurn := journal.View(), turn;
      LoadedIsFaithful(config, start);
      var appended := TryAppend(s.head, config.DraftFor(owner, s.head + 1));
      ghost var second, secondTurn := journal.View(), turn;
      if |others| <= startTurn { Unhindered(config, others, start, s, owner, startTurn, secondTurn, second, appended); }
      AdvancesTwice(config, others, start, second, second);
      if appended.Err? && !appended.error.StalePosition? && !appended.error.Conflict? {
        return Some(Err(JournalFailure(appended.error)));
      }
      var reloaded := Load();
      if |others| <= startTurn { QuietTurns(second, others, secondTurn, turn); }
      AdvancesTwice(config, others, start, second, journal.View());
      r := Judged(s, owner, appended, reloaded);
      JudgedIsSound(config, journal.View(), s, owner, appended, reloaded);
      if |others| <= startTurn { JudgedAlone(config, start, journal.View(), s, owner, appended, reloaded); }
      if r.None? {
        RanTwice(config, others, start, startTurn, second, secondTurn, journal.View(), turn);
      }
    }
  }

  /** What an attempt makes of its append and the load after it: none calls for another attempt. */
  function Judged(s: Replay, owner: InstanceOwner, appended: Result<seq<FactRecord>, FactError>, reloaded: Result<Replay, RegistryError>)
    : Option<Result<Proof, RegistryError>>
  {
    if reloaded.Err? then Some(Err(reloaded.error))
    else if appended.Ok? then
      Some(if owner in reloaded.value.owners then Ok(reloaded.value.owners[owner]) else Err(Corrupt))
    else if reloaded.value.head <= s.head then Some(Err(JournalFailure(appended.error)))
    else None
  }

  lemma JudgedIsSound(config: Config, j: Journal, s: Replay, owner: InstanceOwner, appended: Result<seq<FactRecord>, FactError>,
                      reloaded: Result<Replay, RegistryError>)
    requires IsLoad(config, j, reloaded)
    ensures var r := Judged(s, owner, appended, reloaded);
            && (r.Some? && r.value.Ok? ==> HeldBy(config, j, owner, r.value.value))
            && (r == Some(Err(Capacity)) ==> |Rows(j, config.Stream())| > config.capacity)
            && r != Some(Err(Contention))
            && (r.None? ==> appended.Err? && |Rows(j, config.Stream())| > s.head)
  {
    LoadRefusals(config, j);
    if reloaded.Ok? { LoadedIsFaithful(config, j); }
  }

  /** Left alone, an attempt that appends comes to its answer. */
  lemma JudgedAlone(config: Config, j: Journal, t: Journal, s: Replay, owner: InstanceOwner,
                    appended: Result<seq<FactRecord>, FactError>, reloaded: Result<Replay, RegistryError>)
    requires IsLoad(config, j, Ok(s)) && IsLoad(config, t, reloaded)
    requires owner !in s.owners && |s.owners| < config.capacity
    requires AppendedAlone(config, j, owner, appended, t)
    ensures Judged(s, owner, appended, reloaded) == Some(Undisturbed(config, j, owner))
  {
  }

  /** One draft appended to the stream: its answer and the journal it leaves. */
  ghost predicate Appends(config: Config, j: Journal, expected: nat, draft: FactDraft, r: Result<seq<FactRecord>, FactError>, t: Journal) {
    r == Answer(j, config.Stream(), expected, [draft]) && t == After(j, config.Stream(), expected, [draft])
  }

  /** Left alone, the append fails only if the fact id is taken, and otherwise gives the owner its proof. */
  ghost predicate AppendedAlone(config: Config, j: Journal, owner: InstanceOwner, r: Result<seq<FactRecord>, FactError>, t: Journal) {
    if config.FactOf(owner) in j.identities then r == Err(Conflict(None)) && t == j
    else r.Ok? && HeldBy(config, t, owner, config.ProofAt(owner, |Rows(j, config.Stream())| + 1))
  }

  /** An append at the head, with nobody writing before it. */
  lemma HeadAppendAlone(config: Config, j: Journal, owner: InstanceOwner, appended: Result<seq<FactRecord>, FactError>, t: Journal)
    requires Inv(j) && OwnerValid(owner) && Loaded(config, j).Ok?
    requires owner !in Loaded(config, j).value.owners && |Loaded(config, j).value.owners| < config.capacity <= MAX_RESERVATIONS
    requires Appends(config, j, |Rows(j, config.Stream())|, config.DraftFor(owner, |Rows(j, config.Stream())| + 1), appended, t)
    ensures AppendedAlone(config, j, owner, appended, t)
  {
    LoadedIsFaithful(config, j);
    HeadAppendAnswers(config, j, owner);
    if config.FactOf(owner) !in j.identities { CommittedIsLoaded(config, j, owner); }
  }

  lemma Unhindered(config: Config, others: seq<seq<Op>>, j: Journal, s: Replay, owner: InstanceOwner, turn: nat, next: nat, t: Journal,
                   appended: Result<seq<FactRecord>, FactError>)
    requires Inv(j) && OwnerValid(owner) && IsLoad(config, j, Ok(s)) && |others| <= turn <= next
    requires owner !in s.owners && |s.owners| < config.capacity <= MAX_RESERVATIONS
    requires Appends(config, AfterTurns(j, others, turn, next), s.head, config.DraftFor(owner, s.head + 1), appended, t)
    ensures AppendedAlone(config, j, owner, appended, t)
  {
    QuietTurns(j, others, turn, next);
    LoadedIsFaithful(config, j);
    HeadAppendAlone(config, j, owner, appended, t);
  }

  /** A page of a stream's rows after `head`; empty only at the end. */
  ghost predicate IsNextPage(rows: seq<FactRecord>, head: nat, page: seq<FactRecord>) {
    && head + |page| <= |rows| && page == rows[head..head + |page|]
    && (page == [] ==> head == |rows|)
  }

  lemma NextPageIsRead(config: Config, j: Journal, head: nat, limit: nat)
    requires Inv(j) && head <= |Rows(j, config.Stream())| && 1 <= limit <= PAGE_SIZE
    ensures var answer := Read(j, config.Stream(), head, limit);
            answer.Ok? && |answer.value| <= limit && IsNextPage(Rows(j, config.Stream()), head, answer.value)
  {
    ReadIsSlice(j, config.Stream(), head, limit);
  }

  lemma ReplayAdvances(config: Config, others: seq<seq<Op>>, j: Journal, later: Journal, s: Replay)
    requires Advances(config, others, j, later) && Replays(config, j, s)
    ensures Replays(config, later, s)
  {
    RowsExtend(config, j, later);
    ReplayIsStable(config, Rows(j, config.Stream()), Rows(later, config.Stream()), s.head);
  }

  lemma RowsExtend(config: Config, j: Journal, later: Journal)
    requires Extends(j, later)
    ensures Rows(j, config.Stream()) <= Rows(later, config.Stream())
  {
  }

  lemma {:induction false} AfterTurnsSplit(j: Journal, others: seq<seq<Op>>, a: nat, b: nat, c: nat)
    requires a <= b <= c
    ensures AfterTurns(AfterTurns(j, others, a, b), others, b, c) == AfterTurns(j, others, a, c)
    decreases c
  {
    if b < c { AfterTurnsSplit(j, others, a, b, c - 1); }
  }

  lemma LoadedIsFaithful(config: Config, j: Journal)
    requires Loaded(config, j).Ok?
    ensures var s := Loaded(config, j).value;
            s.head == |Rows(j, config.Stream())| && |s.owners| == s.head
  {
    ReplayIsFaithful(config, Rows(j, config.Stream()), |Rows(j, config.Stream())|);
  }

  lemma {:induction false} RefusalsUpTo(config: Config, rows: seq<FactRecord>, n: nat)
    requires n <= |rows| && ReplayUpTo(config, rows, n).Err?
    ensures ReplayUpTo(config, rows, n).error != Contention
    ensures ReplayUpTo(config, rows, n).error == Capacity ==> n > config.capacity
  {
    if ReplayUpTo(config, rows, n - 1).Err? {
      RefusalsUpTo(config, rows, n - 1);
    } else {
      ReplayIsFaithful(config, rows, n - 1);
    }
  }

  /** A load never reports contention, and reports capacity only of an overfull stream. */
  lemma LoadRefusals(config: Config, j: Journal)
    ensures Loaded(config, j).Err? ==>
              && Loaded(config, j).error != Contention
              && (Loaded(config, j).error == Capacity ==> |Rows(j, config.Stream())| > config.capacity)
  {
    var rows := Rows(j, config.Stream());
    if Loaded(config, j).Err? { RefusalsUpTo(config, rows, |rows|); }
  }
}
