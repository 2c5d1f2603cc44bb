/**
 * The message analyzer: a rule evaluator over six pattern families, the
 * normalisation of an external model's already-parsed judgment, and the fusion
 * of the two into one result.
 *
 * Whether each family's regular expression finds a match in the text is an
 * input (`Matches`); the external judgment arrives as a `Payload`, or as `None`
 * when no provider is configured, none answered, or the answer was not a JSON
 * object with numeric fields.
 */
module BehaviorAnalyzer {
  import opened Wrappers
  import opened PyStrings
  import opened Rounding

  // The six indicator tags, one per pattern family.
  const Urgency: string := "urgency"
  const Authority: string := "authority_impersonation"
  const Reward: string := "reward_bait"
  const Verify: string := "verification_or_secret_request"
  const LinkPressure: string := "external_link_pressure"
  const AltChannel: string := "alternate_channel_push"

  // The categories the rule evaluator can infer.
  const LotteryScam: string := "LOTTERY_SCAM"
  const Phishing: string := "PHISHING"
  const BankFraud: string := "BANK_FRAUD"

  /** Which of the six pattern families found a match in the message. */
  datatype Matches = Matches(
    urgency: bool, authority: bool, reward: bool, verify: bool, link: bool, channel: bool)

  /** One analysis of one message. */
  datatype AnalysisResult = AnalysisResult(
    score: real, confidence: real, indicators: seq<string>, categoryHint: Option<string>)

  /**
   * The external model's answer after JSON parsing and `float()` coercion:
   * `indicators` is `None` when the key is missing, falsy or not a list.
   */
  datatype Payload = Payload(
    riskScore: real, confidence: real, indicators: Option<seq<string>>, categoryHint: Option<string>)

  function Min(x: real, y: real): real { if x <= y then x else y }
  function Max(x: real, y: real): real { if x >= y then x else y }

  /** Python's `max(lo, min(hi, x))`. */
  function Clamp(x: real, lo: real, hi: real): real { Max(lo, Min(hi, x)) }

  /** The result for an empty message. */
  function Zero(): AnalysisResult {
    AnalysisResult(0.0, 0.0, [], None)
  }

  /** What every result reported by the analyzer satisfies. */
  predicate WellFormed(r: AnalysisResult) {
    && 0.0 <= r.score <= 10.0 && Cents(r.score)
    && 0.0 <= r.confidence <= 1.0 && Cents(r.confidence)
    && StrictlySorted(r.indicators)
  }

  predicate IsTag(t: string) {
    t == Urgency || t == Authority || t == Reward || t == Verify || t == LinkPressure || t == AltChannel
  }

  /** The six tags are six different strings. */
  lemma TagsDistinct()
    ensures Urgency != Authority && Urgency != Reward && Urgency != Verify
    ensures Urgency != LinkPressure && Urgency != AltChannel
    ensures Authority != Reward && Authority != Verify && Authority != LinkPressure && Authority != AltChannel
    ensures Reward != Verify && Reward != LinkPressure && Reward != AltChannel
    ensures Verify != LinkPressure && Verify != AltChannel
    ensures LinkPressure != AltChannel
  {
    assert |Urgency| == 7 && |Authority| == 23 && |Reward| == 11 && |Verify| == 30;
    assert |LinkPressure| == 22 && |AltChannel| == 22;
    assert LinkPressure[0] == 'e' && AltChannel[0] == 'a';
  }

  function Weight(matched: bool, w: real): real { if matched then w else 0.0 }

  /** The sum of the weights of the families that matched, before the cap. */
  function RawScore(m: Matches): real {
    Weight(m.urgency, 2.0) + Weight(m.authority, 2.0) + Weight(m.reward, 1.5)
    + Weight(m.verify, 2.5) + Weight(m.link, 2.0) + Weight(m.channel, 1.0)
  }

  /** `tag` appended to the recorded tags when its family matched. */
  function Record(tags: seq<string>, matched: bool, tag: string): (r: seq<string>)
    ensures forall t :: t in r <==> t in tags || (matched && t == tag)
  {
    if matched then tags + [tag] else tags
  }

  /** The tags of the families that matched, in the order the evaluator records them. */
  function MatchedTags(m: Matches): seq<string> {
    var tags := Record([], m.urgency, Urgency);
    var tags := Record(tags, m.authority, Authority);
    var tags := Record(tags, m.reward, Reward);
    var tags := Record(tags, m.verify, Verify);
    var tags := Record(tags, m.link, LinkPressure);
    Record(tags, m.channel, AltChannel)
  }

  /** A tag is recorded exactly when its family matched, and nothing else is recorded. */
  lemma MatchedTagsMembership(m: Matches)
    ensures Urgency in MatchedTags(m) <==> m.urgency
    ensures Authority in MatchedTags(m) <==> m.authority
    ensures Reward in MatchedTags(m) <==> m.reward
    ensures Verify in MatchedTags(m) <==> m.verify
    ensures LinkPressure in MatchedTags(m) <==> m.link
    ensures AltChannel in MatchedTags(m) <==> m.channel
    ensures forall t :: t in MatchedTags(m) ==> IsTag(t)
  {
    TagsDistinct();
  }

  /** The category priority chain over the matched families. */
  function CategoryFor(m: Matches): (r: Option<string>)
    ensures r == Some(LotteryScam) <==> m.reward
    ensures r == Some(Phishing) <==> !m.reward && m.link
    ensures r == Some(BankFraud) <==> !m.reward && !m.link && m.verify && m.authority
    ensures r.None? <==> !m.reward && !m.link && !(m.verify && m.authority)
  {
    assert |LotteryScam| == 12 && |Phishing| == 8 && |BankFraud| == 10;
    if m.reward then Some(LotteryScam)
    else if m.link then Some(Phishing)
    else if m.verify && m.authority then Some(BankFraud)
    else None
  }

  /** The rule evaluator's result, stated from the matched families. */
  function RuleResult(text: string, m: Matches): (r: AnalysisResult)
    ensures text == [] ==> r == Zero()
    ensures StrictlySorted(r.indicators)
    ensures forall t :: t in r.indicators ==> IsTag(t)
  {
    MatchedTagsMembership(m);
    if text == [] then Zero()
    else
      AnalysisResult(
        Round2(Min(10.0, RawScore(m))),
        Round2(Min(1.0, RawScore(m) / 8.0)),
        SortedSet(MatchedTags(m)),
        CategoryFor(m))
  }

  /**
   * One pattern family's step: when it matched, its weight is added to the
   * score and its tag appended to the indicators.
   */
  method Tally(score: real, indicators: seq<string>, matched: bool, weight: real, tag: string)
    returns (score': real, indicators': seq<string>)
    ensures score' == score + Weight(matched, weight)
    ensures indicators' == Record(indicators, matched, tag)
  {
    score', indicators' := score, indicators;
    if matched {
      score' := score' + weight;
      indicators' := indicators' + [tag];
    }
  }

  /** The rule evaluator, accumulating score and indicators family by family. */
  method RuleBasedAnalysis(text: string, m: Matches) returns (r: AnalysisResult)
    ensures r == RuleResult(text, m)
  {
    if text == [] {
      return AnalysisResult(0.0, 0.0, [], None);
    }
    var indicators: seq<string> := [];
    var score := 0.0;
    score, indicators := Tally(score, indicators, m.urgency, 2.0, Urgency);
    score, indicators := Tally(score, indicators, m.authority, 2.0, Authority);
    score, indicators := Tally(score, indicators, m.reward, 1.5, Reward);
    score, indicators := Tally(score, indicators, m.verify, 2.5, Verify);
    score, indicators := Tally(score, indicators, m.link, 2.0, LinkPressure);
    score, indicators := Tally(score, indicators, m.channel, 1.0, AltChannel);
    assert indicators == MatchedTags(m);
    assert score == RawScore(m);
    MatchedTagsMembership(m);

    var category: Option<string> := None;
    if Reward in indicators {
      category := Some(LotteryScam);
    } else if LinkPressure in indicators {
      category := Some(Phishing);
    } else if Verify in indicators && Authority in indicators {
      category := Some(BankFraud);
    }

    assert category == CategoryFor(m);
    var confidence := Min(1.0, score / 8.0);
    r := AnalysisResult(Round2(Min(10.0, score)), Round2(confidence), SortedSet(indicators), category);
    RuleResultFrom(text, m, score, indicators, category);
  }

  /** The evaluator's final assembly, once its accumulators hold the specified values. */
  lemma RuleResultFrom(text: string, m: Matches, score: real, indicators: seq<string>, category: Option<string>)
    requires text != [] && score == RawScore(m) && indicators == MatchedTags(m) && category == CategoryFor(m)
    ensures RuleResult(text, m)
         == AnalysisResult(Round2(Min(10.0, score)), Round2(Min(1.0, score / 8.0)), SortedSet(indicators), category)
  {
  }

  /** The weighted sum is a two-decimal value no larger than 11. */
  lemma RawScoreRange(m: Matches)
    ensures 0.0 <= RawScore(m) <= 11.0
    ensures Cents(RawScore(m))
  {
    assert Cents(0.0) && Cents(1.0) && Cents(1.5) && Cents(2.0) && Cents(2.5);
    CentsAdd(Weight(m.urgency, 2.0), Weight(m.authority, 2.0));
    CentsAdd(Weight(m.urgency, 2.0) + Weight(m.authority, 2.0), Weight(m.reward, 1.5));
    CentsAdd(Weight(m.urgency, 2.0) + Weight(m.authority, 2.0) + Weight(m.reward, 1.5), Weight(m.verify, 2.5));
    CentsAdd(Weight(m.urgency, 2.0) + Weight(m.authority, 2.0) + Weight(m.reward, 1.5) + Weight(m.verify, 2.5),
             Weight(m.link, 2.0));
    CentsAdd(Weight(m.urgency, 2.0) + Weight(m.authority, 2.0) + Weight(m.reward, 1.5) + Weight(m.verify, 2.5)
             + Weight(m.link, 2.0), Weight(m.channel, 1.0));
  }

  /** All six families together weigh 11, so the cap of 10 is reached. */
  lemma CapIsReachable()
    ensures RawScore(Matches(true, true, true, true, true, true)) == 11.0
    ensures RuleResult("x", Matches(true, true, true, true, true, true)).score == 10.0
  {
    Round2Fixed(10.0);
  }

  /** The empty message scores nothing, whatever the families are said to match. */
  lemma RuleEmptyText(m: Matches)
    ensures RuleResult([], m) == AnalysisResult(0.0, 0.0, [], None)
  {
  }

  /** The rule score is the capped sum of the matched weights, exactly. */
  lemma RuleScore(text: string, m: Matches)
    requires text != []
    ensures RuleResult(text, m).score == Min(10.0, RawScore(m))
    ensures 0.0 <= RuleResult(text, m).score <= 10.0
  {
    RawScoreRange(m);
    assert Cents(10.0);
    Round2Fixed(Min(10.0, RawScore(m)));
  }

  /** The rule confidence is score / 8 capped at 1, up to rounding, and reaches 1 from a score of 8. */
  lemma RuleConfidence(text: string, m: Matches)
    requires text != []
    ensures 0.0 <= RuleResult(text, m).confidence <= 1.0
    ensures Min(1.0, RawScore(m) / 8.0) - 0.005 < RuleResult(text, m).confidence <= Min(1.0, RawScore(m) / 8.0) + 0.005
    ensures RawScore(m) >= 8.0 ==> RuleResult(text, m).confidence == 1.0
  {
    RawScoreRange(m);
    assert Cents(0.0) && Cents(1.0);
    Round2Within(0.0, Min(1.0, RawScore(m) / 8.0), 1.0);
    Round2Fixed(1.0);
  }

  /** A tag is reported exactly when its family matched; tags are sorted, distinct and from the six. */
  lemma RuleIndicators(text: string, m: Matches)
    requires text != []
    ensures StrictlySorted(RuleResult(text, m).indicators)
    ensures forall t :: t in RuleResult(text, m).indicators ==> IsTag(t)
    ensures Urgency in RuleResult(text, m).indicators <==> m.urgency
    ensures Authority in RuleResult(text, m).indicators <==> m.authority
    ensures Reward in RuleResult(text, m).indicators <==> m.reward
    ensures Verify in RuleResult(text, m).indicators <==> m.verify
    ensures LinkPressure in RuleResult(text, m).indicators <==> m.link
    ensures AltChannel in RuleResult(text, m).indicators <==> m.channel
  {
    MatchedTagsMembership(m);
  }

  /** The category priority: reward bait, then link pressure, then verification with authority. */
  lemma RuleCategory(text: string, m: Matches)
    requires text != []
    ensures m.reward ==> RuleResult(text, m).categoryHint == Some(LotteryScam)
    ensures !m.reward && m.link ==> RuleResult(text, m).categoryHint == Some(Phishing)
    ensures !m.reward && !m.link && m.verify && m.authority ==> RuleResult(text, m).categoryHint == Some(BankFraud)
    ensures RuleResult(text, m).categoryHint.None? <==> !m.reward && !m.link && !(m.verify && m.authority)
  {
  }

  lemma RuleWellFormed(text: string, m: Matches)
    ensures WellFormed(RuleResult(text, m))
  {
    if text != [] {
      RuleScore(text, m);
      RuleConfidence(text, m);
      RawScoreRange(m);
    } else {
      assert Cents(0.0);
    }
  }

  lemma PhishingTagsSorted()
    ensures StrictlySorted([Authority, LinkPressure, Urgency, Verify])
  {
    assert Below(Authority, LinkPressure) && Below(Authority, Urgency) && Below(Authority, Verify);
    assert Below(LinkPressure, Urgency) && Below(LinkPressure, Verify) && Below(Urgency, Verify);
    ConsSorted(Verify, []);
    ConsSorted(Urgency, [Verify]);
    ConsSorted(LinkPressure, [Urgency, Verify]);
    ConsSorted(Authority, [LinkPressure, Urgency, Verify]);
  }

  /**
   * A message matching urgency, authority, a credential request and a link
   * gets 8.5, full confidence and PHISHING, because link pressure is checked
   * before the bank-fraud rule.
   */
  lemma PhishingExample(text: string)
    requires text != []
    ensures var r := RuleResult(text, Matches(true, true, false, true, true, false));
      && r.score == 8.5 && r.confidence == 1.0 && r.categoryHint == Some(Phishing)
      && r.indicators == [Authority, LinkPressure, Urgency, Verify]
  {
    var m := Matches(true, true, false, true, true, false);
    RuleScore(text, m);
    RuleConfidence(text, m);
    RuleIndicators(text, m);
    var want := [Authority, LinkPressure, Urgency, Verify];
    PhishingTagsSorted();
    TagsDistinct();
    SortedUnique(RuleResult(text, m).indicators, want);
  }

  /** Each raw entry stripped of surrounding whitespace, in order, dropping those left empty. */
  function StripAll(xs: seq<string>): (r: seq<string>)
    ensures |r| <= |xs|
    ensures forall y :: y in r ==> Trimmed(y)
    decreases |xs|
  {
    if xs == [] then []
    else if Strip(xs[0]) == [] then StripAll(xs[1..])
    else [Strip(xs[0])] + StripAll(xs[1..])
  }

  /** Every cleaned entry is a stripped form of some raw entry. */
  lemma {:induction false} StripAllSound(xs: seq<string>)
    ensures forall y :: y in StripAll(xs) ==> exists i :: 0 <= i < |xs| && Strip(xs[i]) == y
    decreases |xs|
  {
    if xs != [] {
      StripAllSound(xs[1..]);
      var head := if Strip(xs[0]) == [] then [] else [Strip(xs[0])];
      assert StripAll(xs) == head + StripAll(xs[1..]);
      forall y | y in StripAll(xs) ensures exists i :: 0 <= i < |xs| && Strip(xs[i]) == y {
        if y in StripAll(xs[1..]) {
          var j :| 0 <= j < |xs[1..]| && Strip(xs[1..][j]) == y;
          assert Strip(xs[j + 1]) == y;
        } else {
          assert Strip(xs[0]) == y;
        }
      }
    }
  }

  /** Every raw entry that does not strip to "" survives cleaning. */
  lemma {:induction false} StripAllComplete(xs: seq<string>)
    ensures forall i :: 0 <= i < |xs| && Strip(xs[i]) != [] ==> Strip(xs[i]) in StripAll(xs)
    decreases |xs|
  {
    if xs != [] {
      StripAllComplete(xs[1..]);
      var head := if Strip(xs[0]) == [] then [] else [Strip(xs[0])];
      assert StripAll(xs) == head + StripAll(xs[1..]);
      forall i | 0 <= i < |xs| && Strip(xs[i]) != [] ensures Strip(xs[i]) in StripAll(xs) {
        if i > 0 {
          assert xs[i] == xs[1..][i - 1];
          assert Strip(xs[i]) in StripAll(xs[1..]);
        } else {
          assert Strip(xs[i]) in head;
        }
      }
    }
  }

  /** The cleaned list holds exactly the non-empty stripped forms of the raw entries. */
  lemma StripAllMembers(xs: seq<string>)
    ensures forall y :: y in StripAll(xs) ==> Trimmed(y) && y != []
    ensures forall y :: y in StripAll(xs) ==> exists i :: 0 <= i < |xs| && Strip(xs[i]) == y
    ensures forall i :: 0 <= i < |xs| && Strip(xs[i]) != [] ==> Strip(xs[i]) in StripAll(xs)
  {
    StripAllSound(xs);
    StripAllComplete(xs);
  }

  /** The cleaned indicator list: none when the payload carried no usable list. */
  function CleanIndicators(raw: Option<seq<string>>): seq<string> {
    match raw
    case None => []
    case Some(xs) => StripAll(xs)
  }

  /** A missing or empty hint stays absent; any other hint is stripped, possibly down to "". */
  function CleanCategory(c: Option<string>): (r: Option<string>)
    ensures c.None? || c.value == [] ==> r.None?
    ensures c.Some? && c.value != [] ==> r == Some(Strip(c.value))
  {
    if c.None? || c.value == [] then None else Some(Strip(c.value))
  }

  /** The normalisation of an external judgment: clamped, rounded, deduplicated and sorted. */
  function Normalize(p: Payload): (r: AnalysisResult)
    ensures WellFormed(r)
    ensures Clamp(p.riskScore, 0.0, 10.0) - 0.005 < r.score <= Clamp(p.riskScore, 0.0, 10.0) + 0.005
    ensures Clamp(p.confidence, 0.0, 1.0) - 0.005 < r.confidence <= Clamp(p.confidence, 0.0, 1.0) + 0.005
    ensures 0.0 <= p.riskScore <= 10.0 && Cents(p.riskScore) ==> r.score == p.riskScore
    ensures p.riskScore <= 0.0 ==> r.score == 0.0
    ensures p.riskScore >= 10.0 ==> r.score == 10.0
    ensures 0.0 <= p.confidence <= 1.0 && Cents(p.confidence) ==> r.confidence == p.confidence
    ensures p.confidence <= 0.0 ==> r.confidence == 0.0
    ensures p.confidence >= 1.0 ==> r.confidence == 1.0
    ensures forall t :: t in r.indicators <==> t in CleanIndicators(p.indicators)
    ensures r.categoryHint == CleanCategory(p.categoryHint)
  {
    var score := Clamp(p.riskScore, 0.0, 10.0);
    var confidence := Clamp(p.confidence, 0.0, 1.0);
    assert Cents(0.0) && Cents(1.0) && Cents(10.0);
    Round2Within(0.0, score, 10.0);
    Round2Within(0.0, confidence, 1.0);
    assert Cents(p.riskScore) && 0.0 <= p.riskScore <= 10.0 ==> Round2(score) == p.riskScore by {
      if Cents(p.riskScore) && 0.0 <= p.riskScore <= 10.0 { Round2Fixed(score); }
    }
    assert Cents(p.confidence) && 0.0 <= p.confidence <= 1.0 ==> Round2(confidence) == p.confidence by {
      if Cents(p.confidence) && 0.0 <= p.confidence <= 1.0 { Round2Fixed(confidence); }
    }
    AnalysisResult(Round2(score), Round2(confidence), SortedSet(CleanIndicators(p.indicators)), CleanCategory(p.categoryHint))
  }

  /** Normalised external indicators are stripped, non-blank forms of the raw list entries, and all of them. */
  lemma NormalizedIndicators(p: Payload, xs: seq<string>)
    requires p.indicators == Some(xs)
    ensures forall t :: t in Normalize(p).indicators ==> Trimmed(t)
    ensures forall t :: t in Normalize(p).indicators ==> exists i :: 0 <= i < |xs| && Strip(xs[i]) == t
    ensures forall i :: 0 <= i < |xs| && Strip(xs[i]) != [] ==> Strip(xs[i]) in Normalize(p).indicators
  {
    StripAllMembers(xs);
  }

  /** The external judgment: none for an empty message or when no parsed payload is available. */
  function LlmAnalysis(text: string, payload: Option<Payload>): (r: Option<AnalysisResult>)
    ensures text == [] || payload.None? ==> r.None?
    ensures text != [] && payload.Some? ==> r == Some(Normalize(payload.value))
  {
    if text == [] then None
    else match payload
      case None => None
      case Some(p) => Some(Normalize(p))
  }

  /** Python's `a or b` on two optional hints: the first unless it is missing or empty. */
  function FirstHint(a: Option<string>, b: Option<string>): (r: Option<string>)
    ensures a.Some? && a.value != [] ==> r == a
    ensures a.None? || a.value == [] ==> r == b
  {
    if a.Some? && a.value != [] then a else b
  }

  /** The fusion of a rule result with an external one. */
  function Fuse(rule: AnalysisResult, ext: AnalysisResult): (r: AnalysisResult)
    ensures r.score <= 10.0
    ensures Min(10.0, rule.score * 0.6 + ext.score * 0.4) - 0.005 < r.score
    ensures r.score <= Min(10.0, rule.score * 0.6 + ext.score * 0.4) + 0.005
    ensures StrictlySorted(r.indicators)
    ensures forall t :: t in r.indicators <==> t in rule.indicators || t in ext.indicators
    ensures ext.categoryHint.Some? && ext.categoryHint.value != [] ==> r.categoryHint == ext.categoryHint
    ensures ext.categoryHint.None? || ext.categoryHint.value == [] ==> r.categoryHint == rule.categoryHint
    ensures WellFormed(rule) && WellFormed(ext) ==> WellFormed(r)
    ensures WellFormed(rule) && WellFormed(ext) ==>
      Min(rule.score, ext.score) <= r.score <= Max(rule.score, ext.score)
    ensures WellFormed(rule) && WellFormed(ext) ==>
      r.confidence == Max(rule.confidence, ext.confidence)
  {
    var combined := rule.score * 0.6 + ext.score * 0.4;
    var confidence := Max(rule.confidence, ext.confidence);
    assert Cents(10.0) && Cents(1.0) && Cents(0.0);
    Round2Monotone(Min(10.0, combined), 10.0);
    Round2Fixed(10.0);
    assert WellFormed(rule) && WellFormed(ext) ==>
      && Min(rule.score, ext.score) <= Round2(Min(10.0, combined)) <= Max(rule.score, ext.score)
      && Round2(Min(1.0, confidence)) == confidence
    by {
      if WellFormed(rule) && WellFormed(ext) {
        Round2Within(Min(rule.score, ext.score), Min(10.0, combined), Max(rule.score, ext.score));
        Round2Fixed(confidence);
      }
    }
    AnalysisResult(
      Round2(Min(10.0, combined)),
      Round2(Min(1.0, confidence)),
      SortedSet(rule.indicators + ext.indicators),
      FirstHint(ext.categoryHint, rule.categoryHint))
  }

  /**
   * The external judgment moves the fused score at most 0.4 of the way from
   * the rule score towards its own (plus rounding): it cannot dominate.
   */
  lemma FuseBoundedInfluence(rule: AnalysisResult, ext: AnalysisResult)
    requires WellFormed(rule) && WellFormed(ext)
    ensures rule.score - 0.4 * (rule.score - ext.score) - 0.005 < Fuse(rule, ext).score
    ensures Fuse(rule, ext).score <= rule.score - 0.4 * (rule.score - ext.score) + 0.005
    ensures ext.score <= rule.score ==> rule.score - 4.005 < Fuse(rule, ext).score
    ensures ext.score >= rule.score ==> Fuse(rule, ext).score < rule.score + 4.005
  {
    assert rule.score * 0.6 + ext.score * 0.4 <= 10.0;
  }

  /** The whole analysis of one message. */
  method Analyze(text: string, m: Matches, payload: Option<Payload>) returns (r: AnalysisResult)
    ensures WellFormed(r)
    ensures text == [] ==> r == AnalysisResult(0.0, 0.0, [], None)
    ensures payload.None? ==> r == RuleResult(text, m)
    ensures text != [] && payload.Some? ==> r == Fuse(RuleResult(text, m), Normalize(payload.value))
  {
    var rule := RuleBasedAnalysis(text, m);
    RuleWellFormed(text, m);
    var llm := LlmAnalysis(text, payload);
    if llm.None? {
      return rule;
    }
    r := Fuse(rule, llm.value);
  }
}
