/** What a mint request can come back with (mint_outcome.rs). */
module MintOutcome {
  datatype MintError = Rejection(status: nat, code: nat) | Http(status: nat) | Transport

  /** Only a validated HTTP 400 rejection with a keyset code permits another attempt. */
  predicate PermitsKeysetRetry(e: MintError) {
    e.Rejection? && e.status == 400 && (e.code == 12001 || e.code == 12002)
  }
}
