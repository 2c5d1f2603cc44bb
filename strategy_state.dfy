/**
 * The conversational strategy tier: a first-match chain over the rolling
 * score, the detection flag, the actionable-intelligence count and the number
 * of agent turns, each of which may be given explicitly or read from the session.
 */
module StrategyState {
  import opened Wrappers
  import opened Session

  datatype Strategy = Neutral | Suspicious | ExtractionMode | HighConfidence | HarvestMode

  /** The string constant the source returns for each tier. */
  function Label(t: Strategy): (r: string)
    ensures r == "Neutral" <==> t == Neutral
    ensures r == "Suspicious" <==> t == Suspicious
    ensures r == "Extraction Mode" <==> t == ExtractionMode
    ensures r == "High Confidence Scam" <==> t == HighConfidence
    ensures r == "Intelligence Harvest Mode" <==> t == HarvestMode
  {
    match t
    case Neutral => "Neutral"
    case Suspicious => "Suspicious"
    case ExtractionMode => "Extraction Mode"
    case HighConfidence => "High Confidence Scam"
    case HarvestMode => "Intelligence Harvest Mode"
  }

  /** The five constants are different strings, so the label identifies the tier. */
  lemma LabelInjective(a: Strategy, b: Strategy)
    requires Label(a) == Label(b)
    ensures a == b
  {
    assert |Label(Neutral)| == 7 && |Label(Suspicious)| == 10 && |Label(ExtractionMode)| == 15;
    assert |Label(HighConfidence)| == 20 && |Label(HarvestMode)| == 25;
  }

  /** The decision chain, first match wins; each tier's region is stated on its own. */
  function Classify(score: real, detected: bool, actionable: int, turns: int): (t: Strategy)
    ensures t == Neutral <==> !detected && score < 3.0
    ensures t == Suspicious <==> !detected && 3.0 <= score < 6.0
    ensures t == ExtractionMode <==> score < 10.0 && (detected || score >= 6.0)
    ensures t == HarvestMode <==> score >= 10.0 && (actionable >= 3 || turns >= 5)
    ensures t == HighConfidence <==> score >= 10.0 && actionable < 3 && turns < 5
  {
    if score < 3.0 && !detected then Neutral
    else if score < 6.0 && !detected then Suspicious
    else if score < 10.0 then ExtractionMode
    else if actionable >= 3 || turns >= 5 then HarvestMode
    else HighConfidence
  }

  /** `infer_strategy_state`: an explicit argument overrides the session's value. */
  function InferStrategyState(
    state: SessionState, rollingScore: Option<real>, scamDetected: Option<bool>,
    actionableCount: Option<int>, agentTurns: Option<int>): (t: Strategy)
    ensures scamDetected.GetOr(state.scamDetected) ==> t != Neutral && t != Suspicious
  {
    var score := rollingScore.GetOr(state.rollingScamScore);
    var actionable := actionableCount.GetOr(state.actionableCount);
    var detected := scamDetected.GetOr(state.scamDetected);
    var turns := agentTurns.GetOr(state.agentTurns);
    Classify(score, detected, actionable, turns)
  }

  /** With every argument given, the session is not consulted at all: the given values are classified. */
  lemma ExplicitArgumentsOverride(a: SessionState, b: SessionState, score: real, detected: bool, actionable: int, turns: int)
    ensures InferStrategyState(a, Some(score), Some(detected), Some(actionable), Some(turns))
         == InferStrategyState(b, Some(score), Some(detected), Some(actionable), Some(turns))
    ensures InferStrategyState(a, Some(score), Some(detected), Some(actionable), Some(turns))
         == Classify(score, detected, actionable, turns)
  {
  }

  /** A given score acts exactly as if the session held that rolling score. */
  lemma ScoreArgumentOverrides(
    state: SessionState, score: real, scamDetected: Option<bool>,
    actionableCount: Option<int>, agentTurns: Option<int>)
    ensures InferStrategyState(state, Some(score), scamDetected, actionableCount, agentTurns)
         == InferStrategyState(state.(rollingScamScore := score), None, scamDetected, actionableCount, agentTurns)
  {
  }

  /** A given detection flag acts exactly as if the session held that flag. */
  lemma DetectedArgumentOverrides(
    state: SessionState, rollingScore: Option<real>, detected: bool,
    actionableCount: Option<int>, agentTurns: Option<int>)
    ensures InferStrategyState(state, rollingScore, Some(detected), actionableCount, agentTurns)
         == InferStrategyState(state.(scamDetected := detected), rollingScore, None, actionableCount, agentTurns)
  {
  }

  /** A given actionable count acts exactly as if the session held that count. */
  lemma ActionableArgumentOverrides(
    state: SessionState, rollingScore: Option<real>, scamDetected: Option<bool>,
    actionable: nat, agentTurns: Option<int>)
    ensures InferStrategyState(state, rollingScore, scamDetected, Some(actionable), agentTurns)
         == InferStrategyState(state.(actionableCount := actionable), rollingScore, scamDetected, None, agentTurns)
  {
  }

  /** A given turn count acts exactly as if the session held that count. */
  lemma TurnsArgumentOverrides(
    state: SessionState, rollingScore: Option<real>, scamDetected: Option<bool>,
    actionableCount: Option<int>, turns: nat)
    ensures InferStrategyState(state, rollingScore, scamDetected, actionableCount, Some(turns))
         == InferStrategyState(state.(agentTurns := turns), rollingScore, scamDetected, actionableCount, None)
  {
  }

  /**
   * Each argument overrides its own session field and no other: two sessions
   * that agree on every field whose argument is missing give the same tier.
   */
  lemma EachArgumentOverridesItsField(
    a: SessionState, b: SessionState, rollingScore: Option<real>, scamDetected: Option<bool>,
    actionableCount: Option<int>, agentTurns: Option<int>)
    requires rollingScore.None? ==> a.rollingScamScore == b.rollingScamScore
    requires scamDetected.None? ==> a.scamDetected == b.scamDetected
    requires actionableCount.None? ==> a.actionableCount == b.actionableCount
    requires agentTurns.None? ==> a.agentTurns == b.agentTurns
    ensures InferStrategyState(a, rollingScore, scamDetected, actionableCount, agentTurns)
         == InferStrategyState(b, rollingScore, scamDetected, actionableCount, agentTurns)
  {
  }

  /** With no argument given, each input is the session's own field. */
  lemma MissingArgumentsFallBack(state: SessionState)
    ensures InferStrategyState(state, None, None, None, None)
         == Classify(state.rollingScamScore, state.scamDetected, state.actionableCount, state.agentTurns)
  {
  }

  /** The order of the tiers, the two top tiers sharing the last place. */
  function Rank(t: Strategy): nat {
    match t
    case Neutral => 0
    case Suspicious => 1
    case ExtractionMode => 2
    case HarvestMode => 3
    case HighConfidence => 3
  }

  /** A higher score alone never moves the tier back towards Neutral. */
  lemma ScoreMonotone(lo: real, hi: real, detected: bool, actionable: int, turns: int)
    requires lo <= hi
    ensures Rank(Classify(lo, detected, actionable, turns)) <= Rank(Classify(hi, detected, actionable, turns))
  {
  }

  /** Once a scam is detected the tier is Extraction Mode or above. */
  lemma DetectedAtLeastExtraction(score: real, actionable: int, turns: int)
    ensures Rank(Classify(score, true, actionable, turns)) >= 2
  {
  }
}
