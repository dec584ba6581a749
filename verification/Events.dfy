/** The audit event as host, verifier and tool read it, and the structural rules an event must meet. */
module Events {

  datatype Option<+T> = None | Some(value: T)

  datatype Outcome = Attempted | Success | Failed | Aborted

  datatype AbortReason =
    | HashMismatch
    | HostRejected
    | HostUnavailable
    | HostUncountersigned
    | HostSignatureInvalid

  /** The published spec versions, in publication order. */
  datatype Version = V01 | V011 | V02 | V03 | V04

  /** The largest integer JCS serializes exactly, 2^53 - 1. */
  const MAX_SAFE_INTEGER: int := 0x1F_FFFF_FFFF_FFFF

  /**
   * One event. A member is None where it is absent or not of its type. `wellFormed` stands for every
   * structural rule the named members do not carry, `canonical` for lying inside the canonicalization
   * domain, and `body` for the rest of the content: two events have the same canonical form exactly
   * when they are equal.
   */
  datatype Event = Event(
    id: Option<string>,
    version: Option<Version>,
    session: Option<string>,
    outcome: Option<Outcome>,
    reason: Option<AbortReason>,
    keyId: Option<string>,
    signerSeq: Option<int>,
    signature: Option<string>,
    body: nat,
    wellFormed: bool,
    canonical: bool)

  /** What an attempt and its outcome share: the audit session and the operation's id. */
  datatype OpKey = OpKey(session: Option<string>, id: Option<string>)

  /** The key, session and value an event is numbered under. */
  datatype Number = Number(keyId: string, session: string, signerSeq: int)

  predicate IsAttempt(e: Event) {
    e.outcome == Some(Attempted)
  }

  function KeyOf(e: Event): OpKey {
    OpKey(e.session, e.id)
  }

  /** A `signer_seq` inside the canonicalization domain, or None. */
  function Count(n: Option<int>): Option<int> {
    if n.Some? && 0 <= n.value <= MAX_SAFE_INTEGER then n else None
  }

  function NumberOf(e: Event): Option<Number> {
    var n := Count(e.signerSeq);
    if e.keyId.Some? && e.session.Some? && n.Some? then
      Some(Number(e.keyId.value, e.session.value, n.value))
    else
      None
  }

  /** The structural rules of the current version that ingest enforces. */
  predicate SchemaValid(e: Event) {
    && e.wellFormed
    && e.id.Some? && e.session.Some? && e.outcome.Some?
    && e.version == Some(V04)
    && (e.outcome == Some(Aborted) ==> e.reason.Some?)
    && (e.signerSeq.Some? <==> e.keyId.Some?)
    && (e.keyId.Some? <==> e.signature.Some?)
    && (e.signerSeq.Some? ==> 0 <= e.signerSeq.value <= MAX_SAFE_INTEGER)
  }

  /** A refusal: the tool declined to act because the host did not accept. */
  predicate IsRefusal(e: Event) {
    && e.outcome == Some(Aborted)
    && (e.reason == Some(HostRejected) || e.reason == Some(HostUnavailable))
  }
}
