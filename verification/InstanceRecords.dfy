/** Which records the instance registry accepts and writes, and whom it admits, with every field written out. */
module InstanceRecords {
  import opened Wrappers
  import opened Utf8
  import opened FactTypes
  import opened FactAdmission
  import opened FactJournal
  import opened InstanceRegistry

  /** A control character: below the space, or from delete up to the second control block's end. */
  predicate IsControl(c: char) {
    (c as int) < 32 || 127 <= (c as int) <= 159
  }

  /** A coordinate is no blank, at most 256 bytes long and free of control characters. */
  predicate IsPlainCoordinate(text: string) {
    IsIdentity(text) && forall i :: 0 <= i < |text| ==> !IsControl(text[i])
  }

  lemma OwnerExactlyWhen(owner: InstanceOwner)
    ensures OwnerValid(owner)
            <==> IsPlainCoordinate(owner.sessionId) && IsPlainCoordinate(owner.taskId) && IsPlainCoordinate(owner.invocationId)
  {
    IdentityExactlyWhen(owner.sessionId);
    IdentityExactlyWhen(owner.taskId);
    IdentityExactlyWhen(owner.invocationId);
  }

  /** The reservation of this owner at this position of the host's stream. */
  function ReservationOf(host: string, owner: InstanceOwner, position: nat): FactRecord {
    var instance := InstanceName(host, position);
    FactRecord(InstanceStream(host), position,
               FactDraft(ReservationFact(host, owner), FactSubject(AgentInstance, instance), InstanceReserved, 1, true, [],
                         FactPayload.Reservation(FactTypes.Reserved(host, owner, instance))))
  }

  /**
   After the first records of a stream the next one is accepted exactly when it is the
   reservation of an admitted owner that has none, at its own position, below capacity.
   */
  lemma NextExactlyWhen(config: Config, rows: seq<FactRecord>, record: FactRecord)
    requires ReplayUpTo(config, rows, |rows|).Ok?
    ensures var s := ReplayUpTo(config, rows, |rows|).value;
            Replayed(config, s, record).Ok?
            <==> |rows| < config.capacity && exists owner ::
                   record == ReservationOf(config.host, owner, |rows| + 1) && OwnerValid(owner) && owner !in s.owners
  {
    var s := ReplayUpTo(config, rows, |rows|).value;
    ReplayIsFaithful(config, rows, |rows|);
    InstancesAreEarlier(config, rows, |rows|);
    if Replayed(config, s, record).Ok? {
      assert record == ReservationOf(config.host, record.draft.payload.reserved.owner, |rows| + 1);
    }
  }

  /** What the refusal of a record says, for a stream that is not yet full. */
  lemma RefusedRecord(config: Config, rows: seq<FactRecord>, record: FactRecord)
    requires ReplayUpTo(config, rows, |rows|).Ok?
    requires Replayed(config, ReplayUpTo(config, rows, |rows|).value, record).Err?
    ensures var error := Replayed(config, ReplayUpTo(config, rows, |rows|).value, record).error;
            if |rows| >= config.capacity then error == Capacity
            else if record.stream != InstanceStream(config.host) || record.position != |rows| + 1 then error == Corrupt
            else if record.draft.schemaVersion != 1 then error == UnknownSchema(record.draft.schemaVersion)
            else error == Corrupt || error.ConflictingOwner?
  {
    ReplayIsFaithful(config, rows, |rows|);
  }

  /** What a reservation alone appends. */
  lemma WrittenRecord(config: Config, owner: InstanceOwner, position: nat)
    ensures FactRecord(config.Stream(), position, config.DraftFor(owner, position)) == ReservationOf(config.host, owner, position)
    ensures config.ProofAt(owner, position)
            == Proven(InstanceName(config.host, position), FactRef(InstanceStream(config.host), position, ReservationFact(config.host, owner)))
  {
  }
}
