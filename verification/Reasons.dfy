/** The Tier-1 codes: reject reasons, and the anomaly kinds a host records or a verifier reports. */
module Reasons {
  datatype Code =
    | SchemaInvalid
    | ReplayDetected
    | SignatureInvalid
    | L2Unsigned
    | UnknownKey
    | HostSignatureInvalid
    | RecordHashMismatch
    | DigestMismatch
    | PrincipalMismatch
    | SeqGap
    | SignerSeqGap
    | OrphanedOutcome
    | UnresolvedAttempt
}
