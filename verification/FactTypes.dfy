/**
 The vocabulary of the coordination fact journal and its admission bounds.

 Names the program derives from SHA-256 digests are structured values, so two of
 them are equal exactly when what was digested is equal.
 */
module FactTypes {
  import opened Wrappers
  import opened Utf8

  const MAX_FACT_PAYLOAD_BYTES: nat := 131072
  const MAX_FACT_BATCH: nat := 64
  const MAX_FACT_CAUSES: nat := 32
  const MAX_FACT_ID_BYTES: nat := 256
  const MAX_READ: nat := 1024
  const I64_MAX: nat := 0x7fff_ffff_ffff_ffff

  datatype InstanceOwner = InstanceOwner(sessionId: string, taskId: string, invocationId: string)

  datatype Name =
    | Plain(text: string)
    | InstanceStream(host: string)
    | ReservationFact(host: string, owner: InstanceOwner)
    | InstanceName(host: string, position: nat)

  datatype Reserved = Reserved(host: string, owner: InstanceOwner, instance: Name)

  /** A reservation, or any other JSON value given by its serialized text. */
  datatype FactPayload = Reservation(reserved: Reserved) | Json(text: string)

  /** The two kinds of the reservation stream, and any other kind by its text. */
  datatype FactKind = AgentInstance | InstanceReserved | OtherKind(text: string)

  datatype FactSubject = FactSubject(kind: FactKind, id: Name)

  datatype FactRef = FactRef(stream: Name, position: nat, factId: Name)

  datatype FactDraft = FactDraft(
    factId: Name,
    subject: FactSubject,
    kind: FactKind,
    schemaVersion: nat,
    critical: bool,
    causes: seq<FactRef>,
    payload: FactPayload)

  datatype FactRecord = FactRecord(stream: Name, position: nat, draft: FactDraft)

  datatype FactError =
    | Invalid
    | Conflict(id: Option<Name>)
    | StalePosition(expected: nat, actual: nat)
    | MissingCause(cause: Name)

  // ------------------------------------------------------------------ bounds

  predicate IsWhitespace(c: char) {
    var code := c as int;
    || 9 <= code <= 13 || code == 0x20 || code == 0x85 || code == 0xA0 || code == 0x1680
    || 0x2000 <= code <= 0x200A || code == 0x2028 || code == 0x2029 || code == 0x202F
    || code == 0x205F || code == 0x3000
  }

  predicate BlankUpTo(s: string, n: nat)
    requires n <= |s|
  {
    n == 0 || (BlankUpTo(s, n - 1) && IsWhitespace(s[n - 1]))
  }

  predicate IdentityValid(s: string) {
    !BlankUpTo(s, |s|) && Utf8Length(s) <= MAX_FACT_ID_BYTES
  }

  /** Derived names are short, fixed forms. */
  predicate NameValid(name: Name) {
    name.Plain? ==> IdentityValid(name.text)
  }

  predicate IsSegmentChar(c: char) {
    'a' <= c <= 'z' || 'A' <= c <= 'Z' || '0' <= c <= '9' || c == '_' || c == '-'
  }

  /** The first `n` characters are segments joined by single dots; the last may still be open. */
  predicate SegmentsUpTo(kind: string, n: nat)
    requires n <= |kind|
  {
    n == 0 || (SegmentsUpTo(kind, n - 1)
               && (IsSegmentChar(kind[n - 1]) || (kind[n - 1] == '.' && n > 1 && kind[n - 2] != '.')))
  }

  /** At least two nonempty segments of plain characters, joined by dots. */
  predicate KindTextValid(kind: string) {
    && IdentityValid(kind)
    && '.' in kind
    && SegmentsUpTo(kind, |kind|)
    && kind[|kind| - 1] != '.'
  }

  predicate KindValid(kind: FactKind) {
    kind.OtherKind? ==> KindTextValid(kind.text)
  }

  /** Serialized size; a reservation of valid identities stays far below the limit. */
  function PayloadBytes(payload: FactPayload): nat {
    match payload
    case Json(text) => Utf8Length(text)
    case Reservation(_) => 0
  }

  predicate DraftValid(draft: FactDraft) {
    && NameValid(draft.factId) && NameValid(draft.subject.id)
    && KindValid(draft.subject.kind) && KindValid(draft.kind)
    && draft.schemaVersion != 0
    && |draft.causes| <= MAX_FACT_CAUSES
    && PayloadBytes(draft.payload) <= MAX_FACT_PAYLOAD_BYTES
  }

  predicate CausesValid(draft: FactDraft) {
    forall i :: 0 <= i < |draft.causes| ==>
      && NameValid(draft.causes[i].stream) && NameValid(draft.causes[i].factId)
      && 0 < draft.causes[i].position <= I64_MAX
  }
}
