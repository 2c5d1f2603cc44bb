/**
 * The read view of one engagement's aggregates that the policies consume.
 * The session record itself lives elsewhere; only these fields are read.
 */
module Session {
  import opened Wrappers

  datatype SessionState = SessionState(
    finalized: bool,
    scamDetected: bool,
    /** Seconds since the epoch at which a scam was first detected, if one was. */
    firstScamTimestamp: Option<real>,
    scammerMessages: nat,
    agentTurns: nat,
    rollingScamScore: real,
    /** Distinct categories of actionable intelligence captured so far. */
    actionableCount: nat,
    hasHighValue: bool,
    /** Some payment handle or wallet address has been captured. */
    hasPaymentId: bool)
}
