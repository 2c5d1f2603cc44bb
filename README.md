# Scam-baiting honeypot: decision core in Dafny

This project models the decision core of a scam-baiting honeypot agent and
proves properties of it. The core has four components:

- **The message analyzer** (`behavior_analyzer.dfy`, module `BehaviorAnalyzer`).
  A rule evaluator gives a risk score, a confidence, indicator tags and a
  category hint. Six pattern families each add a fixed weight and record a tag,
  and a priority chain picks the category. An external model's judgment is
  normalised: clamped, rounded, stripped, deduplicated and sorted. The two are
  fused with a 0.6/0.4 weighted score, the larger confidence, the union of
  indicators and the external category first. Whether each family's regular
  expression matched is an input (`Matches`). The external judgment is an
  already-parsed `Payload`, or `None`.
- **The call admission gate** (`llm_load_control.dfy`, class
  `LoadControl.CallGate`). It keeps one sliding 60-second window of admission
  times globally and one per stage (reply, behaviour, extraction). It counts
  refused calls per stage. Behaviour-stage calls first pass a deterministic
  sampling filter. The clock reading `now` is a parameter.
- **The engagement finalizer** (`engagement_policy.dfy`). It decides whether a
  session should end, from its counters and the time since a scam was first
  detected.
- **The strategy classifier** (`strategy_state.dfy`). A first-match chain picks
  one of five conversational tiers.

Supporting modules:

- `pystrings.dfy`: Python's string order, `sorted(set(...))` and `str.strip()`.
- `rounding.dfy`: `round(x, 2)` on exact reals.
- `session.dfy`: the session fields the policies read.
- `wrappers.dfy`: `Option`.

The rule evaluator (`RuleBasedAnalysis`) and the gate's methods are imperative,
as in the source. Each is proved against a specification function
(`RuleResult`, `Pruned`), and the properties are lemmas about those functions.
Normalisation, fusion, the finalizer and the classifier are pure functions.

## Model

| member | source | states |
|---|---|---|
| PyStrings.SortedSet | agent/behavior_analyzer.py:71 | `sorted(set(xs))`: strictly increasing in Python's string order, with exactly the elements of `xs` |
| PyStrings.SortedUnique | agent/behavior_analyzer.py:71 | two strictly sorted lists with the same elements are equal, so `sorted(set(..))` has exactly one possible value |
| PyStrings.Insert | agent/behavior_analyzer.py:71 | inserting into a strictly sorted list keeps it strictly sorted and adds exactly that element |
| PyStrings.BelowTotal | agent/behavior_analyzer.py:71 | Python's `<` on two different strings orders them one way or the other |
| PyStrings.BelowTransitive | agent/behavior_analyzer.py:71 | Python's `<` on strings is transitive |
| PyStrings.Strip | agent/behavior_analyzer.py:125 | `str.strip()` is no longer than its input, is empty exactly when the input is all whitespace, and otherwise has no whitespace at either end |
| PyStrings.StripFramed | agent/behavior_analyzer.py:125 | `str.strip()` returns a slice of its input with only whitespace before and after it, so it removes end whitespace and nothing else |
| PyStrings.TrimLeft | agent/behavior_analyzer.py:125 | the leading-whitespace cut leaves a suffix whose dropped prefix is all whitespace |
| PyStrings.TrimRight | agent/behavior_analyzer.py:125 | the trailing-whitespace cut leaves a prefix whose dropped suffix is all whitespace |
| Rounding.Round2 | agent/behavior_analyzer.py:69-70 | `round(x, 2)` is a two-decimal value within 0.005 of `x` |
| Rounding.Round2Fixed | agent/behavior_analyzer.py:69-70 | rounding leaves a two-decimal value unchanged |
| Rounding.Round2Monotone | agent/behavior_analyzer.py:155-156 | rounding never reverses the order of two values |
| Rounding.Round2Within | agent/behavior_analyzer.py:132-133 | a value between two two-decimal bounds stays between them after rounding |
| BehaviorAnalyzer.TagsDistinct | agent/behavior_analyzer.py:40-57 | the six indicator tags are six different strings |
| BehaviorAnalyzer.Record | agent/behavior_analyzer.py:40-57 | one family's step records its tag exactly when the family matched, and keeps the earlier tags |
| BehaviorAnalyzer.MatchedTagsMembership | agent/behavior_analyzer.py:40-57 | a tag is recorded exactly when its family matched, and only the six tags are recorded |
| BehaviorAnalyzer.CategoryFor | agent/behavior_analyzer.py:59-65 | LOTTERY_SCAM exactly when reward bait matched; PHISHING exactly when link pressure matched without reward bait; BANK_FRAUD exactly when verification and authority matched without either; no category otherwise |
| BehaviorAnalyzer.RuleResult | agent/behavior_analyzer.py:33-73 | the rule result is the zero result for empty text, and its indicators are always strictly sorted and drawn from the six tags |
| BehaviorAnalyzer.Tally | agent/behavior_analyzer.py:40-57 | one family's step adds its weight when it matched and appends its tag |
| BehaviorAnalyzer.RuleBasedAnalysis | agent/behavior_analyzer.py:33-73 | the step-by-step evaluator computes exactly `RuleResult`: the empty-text zero result, the capped weight sum, `min(1, score/8)`, the sorted tags and the priority category |
| BehaviorAnalyzer.RawScoreRange | agent/behavior_analyzer.py:38-57 | the weight sum lies in [0, 11] and is a two-decimal value |
| BehaviorAnalyzer.CapIsReachable | agent/behavior_analyzer.py:38-69 | all six families weigh 11, so the cap of 10 is reached |
| BehaviorAnalyzer.RuleEmptyText | agent/behavior_analyzer.py:34-35 | an empty message gives score 0, confidence 0, no indicators and no category |
| BehaviorAnalyzer.RuleScore | agent/behavior_analyzer.py:38-69 | the rule score is exactly `min(10, sum of matched weights)`, so it lies in [0, 10] |
| BehaviorAnalyzer.RuleConfidence | agent/behavior_analyzer.py:67-70 | the rule confidence lies in [0, 1], is within rounding of `min(1, score/8)`, and is 1 once the sum reaches 8 |
| BehaviorAnalyzer.RuleIndicators | agent/behavior_analyzer.py:40-71 | rule indicators are strictly sorted, drawn from the six tags, and hold each tag exactly when its family matched |
| BehaviorAnalyzer.RuleCategory | agent/behavior_analyzer.py:59-65 | reward bait gives LOTTERY_SCAM even with link pressure; otherwise link pressure gives PHISHING; otherwise verification with authority gives BANK_FRAUD; there is no category exactly when none of these holds |
| BehaviorAnalyzer.RuleWellFormed | agent/behavior_analyzer.py:33-73 | every rule result has a two-decimal score in [0, 10], a two-decimal confidence in [0, 1] and strictly sorted indicators |
| BehaviorAnalyzer.PhishingTagsSorted | agent/behavior_analyzer.py:71 | the four tags of a message matching urgency, authority, a credential request and a link, in code-point order, are strictly sorted |
| BehaviorAnalyzer.PhishingExample | agent/behavior_analyzer.py:33-73 | urgency, authority, verification and link give 8.5, confidence 1.0, PHISHING and the four tags in sorted order |
| BehaviorAnalyzer.StripAll | agent/behavior_analyzer.py:125 | cleaning never lengthens the list, and every cleaned entry is non-empty with no whitespace at either end |
| BehaviorAnalyzer.StripAllSound | agent/behavior_analyzer.py:125 | every cleaned indicator is the stripped form of some raw entry |
| BehaviorAnalyzer.StripAllComplete | agent/behavior_analyzer.py:125 | every raw entry that does not strip to empty survives cleaning |
| BehaviorAnalyzer.StripAllMembers | agent/behavior_analyzer.py:123-127 | cleaned indicators are non-empty, trimmed, come from the raw entries, and include all of them that are not blank |
| BehaviorAnalyzer.CleanCategory | agent/behavior_analyzer.py:128-129 | a missing or empty hint becomes none; any other hint is stripped, possibly to empty |
| BehaviorAnalyzer.Normalize | agent/behavior_analyzer.py:123-136 | the external score is within 0.005 of its clamp into [0, 10] and the confidence within 0.005 of its clamp into [0, 1], both two-decimal, both kept when already two-decimal and in range; indicators are the sorted, deduplicated cleaned list; the hint is the cleaned category |
| BehaviorAnalyzer.NormalizedIndicators | agent/behavior_analyzer.py:123-136 | normalised external indicators are trimmed, come from the raw list, and include every non-blank raw entry |
| BehaviorAnalyzer.LlmAnalysis | agent/behavior_analyzer.py:81-136 | no external result for an empty message or a missing payload; otherwise the normalised payload |
| BehaviorAnalyzer.FirstHint | agent/behavior_analyzer.py:152 | Python's `or` on two hints: the first unless it is missing or empty, otherwise the second |
| BehaviorAnalyzer.Fuse | agent/behavior_analyzer.py:149-158 | the fused score is `min(10, 0.6·rule + 0.4·ext)` up to rounding and lies between the two input scores; the confidence is the larger input confidence; the indicators are the sorted union; the external category wins unless it is missing or empty |
| BehaviorAnalyzer.FuseBoundedInfluence | agent/behavior_analyzer.py:149-155 | the external judgment moves the fused score at most 0.4 of the way from the rule score towards its own, so never by more than 4 |
| BehaviorAnalyzer.Analyze | agent/behavior_analyzer.py:138-159 | the analysis is always well formed; it is the zero result for empty text, the rule result unchanged with no external result, and otherwise the fusion of the two |
| LoadControl.StageOf | services/llm_load_control.py:45-49 | exactly the names "reply", "behavior" and "extraction" are stages |
| LoadControl.AtLeastOne | services/llm_load_control.py:44-50 | `max(1, x)`: at least 1 and at least `x`, and either 1 or `x`, so exactly 1 for a limit below 1 and `x` otherwise |
| LoadControl.Pruned | services/llm_load_control.py:60-63 | pruning drops only entries older than `now - 60` from the front, and the first remaining entry is within the window |
| LoadControl.PrunedIsSuffix | services/llm_load_control.py:60-63 | what pruning leaves is the queue's own tail, in order and unchanged |
| LoadControl.Prune | services/llm_load_control.py:60-63 | the pop-from-the-front loop computes `Pruned` |
| LoadControl.PrunedIdempotent | services/llm_load_control.py:60-63 | pruning twice at the same time is pruning once |
| LoadControl.PrunedKeepsRecent | services/llm_load_control.py:60-63 | a queue whose entries are all within the window loses nothing |
| LoadControl.PrunedLater | services/llm_load_control.py:60-63 | a later clock never leaves more entries, whatever the order of the queue's timestamps |
| LoadControl.SamplingAllows | services/llm_load_control.py:65-70 | sampling passes whenever N ≤ 1 or the index is at most 1 (including 0 and the negative indices read as 0), and refuses indices 2 to N when N > 1 |
| LoadControl.SamplingStride | services/llm_load_control.py:65-70 | from the first message on, sampling passes exactly when `(index - 1) mod N = 0` |
| LoadControl.SamplingEveryNth | services/llm_load_control.py:65-70 | messages 1, 1+N, 1+2N, ... always pass |
| LoadControl.SamplingNoStarvation | services/llm_load_control.py:65-70 | among any N consecutive messages one passes |
| LoadControl.SamplingExampleThree | services/llm_load_control.py:65-70 | with N = 3, of messages 1 to 7 exactly 1, 4 and 7 pass |
| LoadControl.CallGate.constructor | services/llm_load_control.py:33-58 | limits and the sample interval are the configured values raised to at least 1; all queues are empty and all refusal counters 0 |
| LoadControl.CallGate.Allow | services/llm_load_control.py:72-97 | an unknown stage is refused and a disabled gate admits, both with no state change; a behaviour call refused by sampling (a negative index read as 0) changes nothing; otherwise the call is admitted exactly when both pruned windows have room; admission appends `now` to the global and the stage queue, refusal adds 1 to that stage's counter and appends nothing; other stages are untouched; the queue bounds are kept |
| LoadControl.CallGate.Admit | services/llm_load_control.py:82-97 | the locked window check: both queues pruned, then refusal with counter + 1, or admission appending `now` to both queues |
| LoadControl.CallGate.Snapshot | services/llm_load_control.py:99-118 | every queue is pruned; the report gives the configured limits, in-window counts equal to the pruned queue lengths, and the unchanged refusal counters |
| LoadControl.SaturationScenario | services/llm_load_control.py:72-97 | with a global limit of 2, two calls are admitted, a third on another stage is refused, and a call is admitted again once the first has left the window |
| EngagementPolicy.TruncToInt | services/engagement_policy.py:14 | `int()` truncates toward zero |
| EngagementPolicy.ElapsedSeconds | services/engagement_policy.py:12-14 | 0 with no detection timestamp; otherwise, once the clock has reached the timestamp, the whole seconds since it, rounded down |
| EngagementPolicy.ShouldFinalize | services/engagement_policy.py:5-39 | ending needs a detected, unfinalized session with at least 5 agent turns; 12 agent turns always end a detected, unfinalized session |
| EngagementPolicy.FinalizeIsDisjunction | services/engagement_policy.py:5-39 | the decision is detected, not finalized, and one of: the hard cap, the payment exit, deep extraction or the chatty fallback, each with its own thresholds |
| EngagementPolicy.NeverWhenFinalizedOrUndetected | services/engagement_policy.py:6-7 | a finalized or undetected session is never ended, whatever its other fields |
| EngagementPolicy.ElapsedFloor | services/engagement_policy.py:12-27 | the whole-seconds elapsed time reaches 60 exactly when 60 seconds have passed |
| EngagementPolicy.FirstMinuteOnlyHardCap | services/engagement_policy.py:18-37 | within the first minute only the hard cap can end the engagement |
| EngagementPolicy.NoTimestampOnlyHardCap | services/engagement_policy.py:12-37 | with no detection timestamp, a detected, unfinalized session ends exactly at 12 agent turns |
| EngagementPolicy.HardCapExample | services/engagement_policy.py:18-19 | 12 turns end the engagement at once, with nothing captured |
| EngagementPolicy.FewTurnsExample | services/engagement_policy.py:18-39 | 4 turns, 3 actionable categories and 120 seconds give false |
| EngagementPolicy.TruncMonotone | services/engagement_policy.py:14 | truncation never reverses the order of two times |
| EngagementPolicy.FinalizeMonotone | services/engagement_policy.py:15-39 | raising any count, capturing a payment id or more elapsed time never turns true into false |
| EngagementPolicy.FinalizeStaysTrue | services/engagement_policy.py:12-39 | waiting never turns the decision from true to false |
| EngagementPolicy.IgnoresHighValueAndScore | services/engagement_policy.py:10 | the high-value flag, computed but unused, and the rolling score do not affect the decision |
| StrategyState.Label | services/strategy_state.py:4-8 | each tier is shown as exactly its own constant: "Neutral", "Suspicious", "Extraction Mode", "High Confidence Scam", "Intelligence Harvest Mode" |
| StrategyState.LabelInjective | services/strategy_state.py:4-8 | the five tier constants are different strings |
| StrategyState.Classify | services/strategy_state.py:23-31 | Neutral exactly when undetected and score < 3; Suspicious exactly when undetected and 3 ≤ score < 6; Extraction Mode exactly when score < 10 and detected or score ≥ 6; Harvest exactly when score ≥ 10 with 3 actionable or 5 turns; High Confidence exactly when score ≥ 10 otherwise |
| StrategyState.InferStrategyState | services/strategy_state.py:11-31 | a detected scam, given or read from the session, is never Neutral or Suspicious |
| StrategyState.ExplicitArgumentsOverride | services/strategy_state.py:18-21 | with every argument given, the session's fields play no part and the tier is the classification of exactly the given values |
| StrategyState.ScoreArgumentOverrides | services/strategy_state.py:18 | a given rolling score gives the same tier as a session holding that score with the argument missing |
| StrategyState.DetectedArgumentOverrides | services/strategy_state.py:20 | a given detection flag gives the same tier as a session holding that flag with the argument missing |
| StrategyState.ActionableArgumentOverrides | services/strategy_state.py:19 | a given actionable count gives the same tier as a session holding that count with the argument missing |
| StrategyState.TurnsArgumentOverrides | services/strategy_state.py:21 | a given turn count gives the same tier as a session holding that count with the argument missing |
| StrategyState.EachArgumentOverridesItsField | services/strategy_state.py:18-21 | each argument overrides only its own session field: sessions agreeing on the fields whose arguments are missing give the same tier, for any mix of given and missing arguments |
| StrategyState.MissingArgumentsFallBack | services/strategy_state.py:18-21 | with no argument given, each input is the session's own field |
| StrategyState.ScoreMonotone | services/strategy_state.py:23-31 | with the other inputs fixed, a higher score never moves the tier back towards Neutral |
| StrategyState.DetectedAtLeastExtraction | services/strategy_state.py:23-28 | a detected scam is at Extraction Mode or above, whatever the score |

## Left out

- Regular expressions: whether each of the six patterns (agent/behavior_analyzer.py:8-21) matches is the input `Matches`, not computed from the text.
- External model calls: the provider checks, the OpenAI and Gemini chat calls, the fallback from the first to the second provider, and JSON extraction (agent/behavior_analyzer.py:83-115). These are network I/O. `extract_json_object` is not part of this model. The payload arrives already parsed, or as `None` when any of these steps yields nothing.
- `float()` and `str()` coercion of payload fields, with the `TypeError`/`ValueError` path (agent/behavior_analyzer.py:117-121,125,129). Scores are taken as reals and indicators and hints as strings. A failed conversion is a `None` payload. Non-string list items and non-string hints are not modelled.
- Rounding.Round2: rounds exact reals with halves up, while Python's `round` works on binary doubles with halves to even. So no contract claims bit-exact agreement. Only the 0.005 bound, the range bounds, and exactness on two-decimal values are stated.
- BehaviorAnalyzer.Fuse: fusion inputs that are not well formed (scores outside [0, 10]) get only the rounding-bound and indicator/category clauses. The source only ever fuses results of its own two producers, which are well formed.
- Floating-point arithmetic in general: every score, confidence and timestamp is an exact real.
- `threading.Lock` (services/llm_load_control.py:58,82,101): `Allow` and `Snapshot` run one at a time. The locked block of `allow` is the separate method `CallGate.Admit`.
- `time.time()` (services/llm_load_control.py:81,100; services/engagement_policy.py:14): the clock reading is the parameter `now`.
- LoadControl.Prune: the deques are mutated in place with `popleft`. The model prunes a `seq` value and reassigns the field, so aliasing of the deque objects is not captured.
- LoadControl.CallGate.Snapshot: the source loops over the dictionary of queues. The model prunes the four queues one after another, which is equivalent because the keys are fixed.
- `LLMGateSnapshot.to_dict` (services/llm_load_control.py:15-21): key renaming for serialisation. The snapshot's dictionaries are the fields of `GateSnapshot`.
- Session: the intelligence record's `actionable_category_count()`, `has_high_value()` and the payment-id test (services/engagement_policy.py:9-11, services/strategy_state.py:19) are read as the plain session fields `actionableCount`, `hasHighValue` and `hasPaymentId`. The session model (`models/session.py`) is not part of this model.
- StrategyState.InferStrategyState: returns the tier as a datatype. The string the source returns is `Label` of it, and `LabelInjective` shows the labels are distinct.
