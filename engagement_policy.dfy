/**
 * When to end an engagement: never before a scam is detected or after the
 * session is finalized; otherwise at a hard cap of agent turns, or once one of
 * three richer conditions holds after at least a minute since detection.
 */
module EngagementPolicy {
  import opened Wrappers
  import opened Session

  /** Python's `int()` on a float: truncation toward zero. */
  function TruncToInt(x: real): (r: int)
    ensures x >= 0.0 ==> r >= 0 && r as real <= x < r as real + 1.0
    ensures x < 0.0 ==> r <= 0 && r as real - 1.0 < x <= r as real
  {
    if x >= 0.0 then x.Floor else -((-x).Floor)
  }

  /** Whole seconds since the first detection; 0 when none is recorded. */
  function ElapsedSeconds(s: SessionState, now: real): (r: int)
    ensures s.firstScamTimestamp.None? ==> r == 0
    ensures s.firstScamTimestamp.Some? && now >= s.firstScamTimestamp.value ==>
      r >= 0 && r as real <= now - s.firstScamTimestamp.value < r as real + 1.0
  {
    match s.firstScamTimestamp
    case None => 0
    case Some(t) => TruncToInt(now - t)
  }

  /** Should the engagement end now? */
  function ShouldFinalize(s: SessionState, now: real): (r: bool)
    ensures r ==> s.scamDetected && !s.finalized && s.agentTurns >= 5
    ensures s.scamDetected && !s.finalized && s.agentTurns >= 12 ==> r
  {
    if s.finalized || !s.scamDetected then false
    else
      var actionable := s.actionableCount;
      var elapsed := ElapsedSeconds(s, now);
      var totalMessages := s.scammerMessages + s.agentTurns;
      if s.agentTurns >= 12 then true
      else if s.hasPaymentId && actionable >= 2 && s.agentTurns >= 5 && totalMessages >= 10 && elapsed >= 60 then true
      else if actionable >= 3 && s.agentTurns >= 10 && elapsed >= 60 then true
      else if s.scammerMessages >= 12 && s.agentTurns >= 10 && elapsed >= 60 then true
      else false
  }

  // The four stopping conditions, each on its own.

  predicate HardCap(s: SessionState) {
    s.agentTurns >= 12
  }

  predicate PaymentExit(s: SessionState, elapsed: int) {
    s.hasPaymentId && s.actionableCount >= 2 && s.agentTurns >= 5
    && s.scammerMessages + s.agentTurns >= 10 && elapsed >= 60
  }

  predicate DeepExtraction(s: SessionState, elapsed: int) {
    s.actionableCount >= 3 && s.agentTurns >= 10 && elapsed >= 60
  }

  predicate ChattyFallback(s: SessionState, elapsed: int) {
    s.scammerMessages >= 12 && s.agentTurns >= 10 && elapsed >= 60
  }

  /** The if-chain is the plain disjunction of the four conditions: their order does not matter. */
  lemma FinalizeIsDisjunction(s: SessionState, now: real)
    ensures ShouldFinalize(s, now) <==>
      && s.scamDetected && !s.finalized
      && (|| HardCap(s)
          || PaymentExit(s, ElapsedSeconds(s, now))
          || DeepExtraction(s, ElapsedSeconds(s, now))
          || ChattyFallback(s, ElapsedSeconds(s, now)))
  {
  }

  /** A finalized or undetected session is never ended again, whatever its counters say. */
  lemma NeverWhenFinalizedOrUndetected(s: SessionState, now: real)
    requires s.finalized || !s.scamDetected
    ensures !ShouldFinalize(s, now)
  {
  }

  /** The elapsed-time floor: `int(d) >= 60` exactly when at least 60 seconds have passed. */
  lemma ElapsedFloor(d: real)
    ensures TruncToInt(d) >= 60 <==> d >= 60.0
  {
  }

  /** Within the first minute after detection only the hard cap can end the engagement. */
  lemma FirstMinuteOnlyHardCap(s: SessionState, now: real)
    requires ElapsedSeconds(s, now) < 60
    ensures ShouldFinalize(s, now) <==> s.scamDetected && !s.finalized && s.agentTurns >= 12
  {
  }

  /** Without a detection timestamp the decision is exactly the hard cap. */
  lemma NoTimestampOnlyHardCap(s: SessionState, now: real)
    requires s.firstScamTimestamp.None? && s.scamDetected && !s.finalized
    ensures ShouldFinalize(s, now) <==> s.agentTurns >= 12
  {
    FirstMinuteOnlyHardCap(s, now);
  }

  /** Twelve agent turns end a detected engagement even at once and with nothing captured. */
  lemma HardCapExample(now: real)
    ensures ShouldFinalize(SessionState(false, true, Some(now), 0, 12, 0.0, 0, false, false), now)
  {
  }

  /** Four agent turns are too few, however rich the capture and however long ago detection was. */
  lemma FewTurnsExample(t: real)
    ensures !ShouldFinalize(SessionState(false, true, Some(t), 20, 4, 10.0, 3, true, true), t + 120.0)
  {
  }

  /** Truncation never reverses the order of two reals. */
  lemma TruncMonotone(x: real, y: real)
    requires x <= y
    ensures TruncToInt(x) <= TruncToInt(y)
  {
    if x >= 0.0 {
      assert x.Floor <= y.Floor;
    } else if y < 0.0 {
      assert (-y).Floor <= (-x).Floor;
    }
  }

  /** More of everything never undoes a decision to end: counts, captures and elapsed time. */
  lemma FinalizeMonotone(a: SessionState, nowA: real, b: SessionState, nowB: real)
    requires a.finalized == b.finalized && a.scamDetected == b.scamDetected
    requires a.scammerMessages <= b.scammerMessages && a.agentTurns <= b.agentTurns
    requires a.actionableCount <= b.actionableCount
    requires a.hasPaymentId ==> b.hasPaymentId
    requires ElapsedSeconds(a, nowA) <= ElapsedSeconds(b, nowB)
    ensures ShouldFinalize(a, nowA) ==> ShouldFinalize(b, nowB)
  {
    FinalizeIsDisjunction(a, nowA);
    FinalizeIsDisjunction(b, nowB);
  }

  /** Waiting never undoes a decision to end. */
  lemma FinalizeStaysTrue(s: SessionState, now: real, later: real)
    requires now <= later
    ensures ShouldFinalize(s, now) ==> ShouldFinalize(s, later)
  {
    if s.firstScamTimestamp.Some? {
      TruncMonotone(now - s.firstScamTimestamp.value, later - s.firstScamTimestamp.value);
    }
    FinalizeMonotone(s, now, s, later);
  }

  /** The high-value flag and the rolling score play no part in the decision. */
  lemma IgnoresHighValueAndScore(s: SessionState, now: real, highValue: bool, score: real)
    ensures ShouldFinalize(s.(hasHighValue := highValue, rollingScamScore := score), now) == ShouldFinalize(s, now)
  {
  }
}
