# Engagement-rate and score engine of check_er_post, in Dafny

check_er_post rates posts on X (Twitter). It takes a post's counters (likes,
retweets, quotes, impressions) and its account's audience (followers, smart
followers, verified followers). From these it computes an engagement rate (ER),
a "Zama" score and a list of advice messages. The same formula exists in four
variants, and this project models each of them:

- `calculateZamaScore` scores one post (module `ZamaScore`, `zama_score.dfy`).
  It has an input guard, the metric chain, two rate guards, a low-ER penalty and
  five anti-gaming guards that push issues. The advice list is an ER band, an
  optional audience message, a verified message, and then the issues.
- `calculateMultiPostScore` scores a batch (module `MultiPostScore`,
  `multi_post_score.dfy`). A loop scores every post. It excludes posts under 1000
  impressions and pools the eligible ones into a batch ER, a total score and one
  batch message.
- `estimateSmartEngagement` (module `SmartEngagement`) is the proportional
  smart-engagement estimate.
- Two UI components compute the score with a rate over "effective impressions".
  Those are impressions discounted by audience trust and by how far the post
  spreads.
  - The single-post checker is module `ErChecker`.
  - The multi-post calculator is module `MultiPostCalculator`. It also has its
    `addPost` / `removePost` list operations.

Shared pieces:
- `Numeric`: a `Num` is either a finite number or not finite (JavaScript's NaN).
  `MathLib` stands for `Math.log10`, `Math.log`, `Math.sqrt` and `Math.pow`, and
  `Sound` holds the only bounds assumed about them.
- `Formula`: the signal chain (SRM, qW, ENG, EngObs, ER_cap, EffEng, Clamp, SF,
  QE, erMult, the raw score and the two rate guards), which all four variants
  share, and VF with verifiedBoost, which only the two services use; the two UI
  components multiply `baseScore * erMult * postMult` with no verified boost.
- `UiFormula`: the UI-only factors (smartShare, trustFactor, propFactor, the
  adjusted rate).
- `Advice`: the advice messages as tags.

Counters are reals. The code divides `Clamp = EffEng / EngObs` in all four
variants. For a post with no likes, retweets or quotes this is 0 / 0, so the
score is NaN. The model keeps that outcome as `NonFinite` rather than excluding
it:
- `Times` and `Plus` carry it on;
- the `= 0` disqualifications replace it with 0;
- every variant's contract says the score is finite exactly when the post (or
  the pooled posts) has some interaction.

In the batch service, one such eligible post makes the whole total score NaN
(`ZeroEngagementPoisonsTotal`).

Some behaviour of the code is easy to misread; the model follows the code as written:
- `calculateZamaScore` shows the low-smart-audience message when
  `min(1, max(0.05, smart/followers) · 0.8) < 0.5`. That is when fewer than 62.5%
  of the followers are smart, not 20% (`ZamaScore.TrustFactor`).
- The batch service multiplies every post's score by the fixed 1.02. Only the
  multi-post UI calculator uses the count-based multiplier `1 + 0.02·min(n, 20)`.
- The UI calculator sums all posts into its totals, including those under 1000
  impressions. The batch service sums only the eligible ones.
- The checker's adjusted ER is 0 when there are no impressions and also when
  there are no interactions (`ErChecker.EffectiveRate`).

## Model

| member | source | states |
|---|---|---|
| Formula.ReachMaturity | app/services/zama-score.ts:34 | SRM is at most 1, non-negative for non-negative impressions, positive for positive impressions, and exactly 1 from 100000 impressions on |
| Formula.ReachMaturityMonotone | app/services/zama-score.ts:34 | SRM never decreases as impressions grow |
| Formula.QuoteWeight | app/services/zama-score.ts:38 | qW lies in [4, 6] for SRM in [0, 1] |
| Formula.WeightedEngagement | app/services/zama-score.ts:39 | with non-negative counters and qW ≥ 1, ENG is at least the plain interaction count |
| Formula.Engagement | app/services/zama-score.ts:38-39 | ENG, with qW derived from the impressions, is at least likes + retweets + quotes |
| Formula.EngagementRate | app/services/zama-score.ts:33 | ER · impressions equals the interactions, and ER is non-negative when they are |
| Formula.PropagationShare | app/services/zama-score.ts:73 | the propagation ratio · max(impressions, 1) = retweets + quotes; non-negative for non-negative counters (the same expression as ERChecker.tsx:60 and MultiPostERCalculator.tsx:64) |
| Formula.EngagementCap | app/services/zama-score.ts:45 | ER_cap lies in [0.01, 0.05] for SRM in [0, 1] |
| Formula.ObservedEngagement | app/services/zama-score.ts:42 | EngObs is the larger of ENG and ER · impressions |
| Formula.EffectiveEngagement | app/services/zama-score.ts:45-46 | EffEng is the smaller of EngObs and impressions · ER_cap, is non-negative, and is positive when EngObs and the impressions are |
| Formula.ClampRatio | app/services/zama-score.ts:47 | Clamp is finite iff EngObs ≠ 0; it is 1 when nothing was capped, in [0, 1] when 0 ≤ EffEng ≤ EngObs, and positive when EffEng > 0 |
| Formula.CapEngagement | app/services/zama-score.ts:42-47 | EngObs, EffEng and Clamp chained in the order of the code; with positive EngObs and impressions, EffEng is at most EngObs and at most impressions · ER_cap, and Clamp is a finite fraction in (0, 1] |
| Formula.SmartSignal | app/services/zama-score.ts:35 | SF is at most 3, and non-negative for non-negative smart followers |
| Formula.VerifiedRatio | app/services/zama-score.ts:36 | VF is at most 1, non-negative for non-negative verified followers, and uses a denominator of 1 when followers ≤ 1 |
| Formula.ReachEfficiency | app/services/zama-score.ts:53 | QE lies in [0, 2 · SRM] |
| Formula.ErMultiplier | app/services/zama-score.ts:58 | erMult lies in [0.9, 1] for non-negative ER and is 1 from ER = 5% on |
| Formula.VerifiedBoost | app/services/zama-score.ts:54 | the verified boost lies in [1, 1.25] |
| Formula.RawScore | app/services/zama-score.ts:60-63 | the score before the guards is finite exactly when Clamp is |
| Formula.RawScoreNonNegative | app/services/zama-score.ts:60-63 | non-negative signals give a finite, non-negative raw score |
| Formula.RateGuards | app/services/zama-score.ts:66-67 | ER > 20% gives 0; otherwise the score is scaled by `RateGuardFactor`; finiteness is kept, nothing changes when ER ≤ 10% or impressions ≥ 50000, and a non-negative score is never raised nor made negative |
| Formula.ServiceSignals | app/services/zama-score.ts:32-58 | Clamp is finite iff the post has interactions; non-negative inputs give non-negative signals; postMult is 1.02; SENG is at most the supplied smart engagement and at most half of EffEng |
| Formula.RateGuardFactor | app/services/zama-score.ts:67 | the second rate guard keeps 30% of the score exactly when ER > 10% on fewer than 50000 impressions, and 100% otherwise |
| Formula.LowErFactor | app/services/zama-score.ts:68 | the services halve the score exactly when ER < 0.1%, and keep it otherwise |
| SmartEngagement.Estimate | app/services/smart-engagement.ts:11-18 | 0 when followers ≤ 0, otherwise estimate · followers = ENG · smart followers; non-negative for non-negative inputs; at most ENG when smart followers ≤ followers |
| ZamaScore.TrustFactor | app/services/zama-score.ts:72 | the trust factor lies in [0.04, 1] and is below 0.5 exactly when the smart ratio is below 0.625 |
| ZamaScore.LikeRate | app/services/zama-score.ts:74 | likeRate · max(impressions, 1) = likes; non-negative for non-negative likes |
| ZamaScore.PropagationRate | app/services/zama-score.ts:73 | propRatio · max(impressions, 1) = retweets + quotes; non-negative for non-negative counters |
| ZamaScore.SmartRatio | app/services/zama-score.ts:72 | the smart ratio · max(followers, 1) = smart followers; non-negative for non-negative smart followers |
| ZamaScore.PostSignals | app/services/zama-score.ts:32-58 | specification of the metric chain of one post (`ServiceSignals` with the post's counters and its supplied smart engagement); its properties are stated by `ServiceSignals` |
| ZamaScore.IssueListOrdered | app/services/zama-score.ts:76-99 | the issues are only issue messages, in strictly increasing guard order |
| ZamaScore.IssueListMembers | app/services/zama-score.ts:76-99 | each issue is in the list exactly when its guard fired |
| ZamaScore.PostIssues | app/services/zama-score.ts:76-99 | a post's issues are in guard order, and each is present iff its condition holds on the post |
| ZamaScore.Issues | app/services/zama-score.ts:71-99 | specification of the issue list: the five guard conditions fed in source order; at most five issues; the one-issue-per-guard and order facts are stated by `PostIssues` and `NoIssues` |
| ZamaScore.NoIssues | app/services/zama-score.ts:76-99 | a post has no issue exactly when none of the five guard conditions holds |
| ZamaScore.PenalizedKept | app/services/zama-score.ts:76-99 | the four penalties (×0.5, ×0.6, ×0.7, ×0.8) keep finiteness and a zero score, and scale a non-negative score into [0, score] |
| ZamaScore.GuardStep | app/services/zama-score.ts:76-99 | specification of one penalty step: the guard's factor when it fired, 1 otherwise; its properties are stated by `PenalizedKept` and `PenalizedNoIssue` |
| ZamaScore.Penalized | app/services/zama-score.ts:76-99 | specification of the four penalties ×0.5 (impressions < 1000), ×0.6 (reach spike), ×0.7 (like-heavy), ×0.8 (only likes), applied in source order; its properties are stated by `PenalizedKept` and `PenalizedNoIssue`, and `AntiGamingGuards`, `GuardedScore` and `CalculateZamaScore` are stated in terms of it |
| ZamaScore.PenalizedNoIssue | app/services/zama-score.ts:76-99 | a post without issues keeps its score unchanged |
| ZamaScore.AntiGamingGuards | app/services/zama-score.ts:70-99 | the pushed issues are the post's issues; a like rate above 50% leaves the score 0; otherwise the score is the input scaled by exactly the factors of the guards that fired, in guard order (`Penalized`), so it keeps its finiteness and is only scaled down, never below 0 |
| ZamaScore.AudienceAdvice | app/services/zama-score.ts:101-109 | exactly one ER band first (high before low before safe), the low-smart message iff the smart ratio is below 0.625, then exactly one verified message |
| ZamaScore.GuardedScore | app/services/zama-score.ts:32-99 | disqualification (ER > 20% or like rate > 50%) gives 0; otherwise the score is the raw score times the second rate guard's factor, the low-ER factor and the penalties that fired; with ER in [0.1%, 10%] and no issue it is the raw score; it is finite iff the post has interactions, non-negative and never above the raw score |
| ZamaScore.ReportAdvice | app/services/zama-score.ts:101-114 | the advice is the ER band, the optional audience message and the verified message, followed by exactly the issues |
| ZamaScore.CalculateZamaScore | app/services/zama-score.ts:20-116 | the invalid-impressions result; ER% = 100 · ER; the two disqualifications, the DQ issue reported; otherwise the score as the raw score times the factors of the guards that fired, and the raw score itself when none fired; finiteness and sign of the score; the whole advice structure with the issues in guard order |
| MultiPostScore.PostScore | app/services/zama-muti-score.ts:51-94 | ER > 20% gives 0; otherwise the raw score times the second rate guard's factor and the low-ER factor, and the raw score itself when ER is in [0.1%, 10%]; finite iff the post has interactions, non-negative for non-negative inputs |
| MultiPostScore.InlineSmartEngagement | app/services/zama-muti-score.ts:59 | specification of the inline estimate ENG · smartFollowers / followers, 0 without followers; `ScorePost` proves it equals `estimateSmartEngagement` |
| MultiPostScore.PostSignals | app/services/zama-muti-score.ts:51-89 | specification of one post's metric chain (`ServiceSignals` with `InlineSmartEngagement`); its properties are stated by `PostRawScoreFinite` and `PostRawScoreNonNegative` |
| MultiPostScore.PostRawScoreFinite | app/services/zama-muti-score.ts:70-89 | the raw score of a post with non-negative counters is finite exactly when it has interactions |
| MultiPostScore.PostRawScoreNonNegative | app/services/zama-muti-score.ts:58-89 | with non-negative counts and audience and a sound math library, a finite raw score is non-negative (the inline smart engagement is non-negative) |
| MultiPostScore.PostAdvice | app/services/zama-muti-score.ts:96-103 | exactly one ER band first; the low-smart message iff followers > 0 and the smart ratio is below 0.2, and then at position 1; the verified message iff VF > 0.1, and then last; the length is 1 plus one per fired message; no low-verified message |
| MultiPostScore.ScorePost | app/services/zama-muti-score.ts:38-110 | an excluded post gives ER 0, score 0, smart engagement 0 and only the exclusion message; an eligible post gives ER% = 100 · ER, the same smart engagement as `estimateSmartEngagement`, the score `PostScore` and the advice `PostAdvice` |
| MultiPostScore.Pool | app/services/zama-muti-score.ts:112-115 | pooling adds the interactions and the impressions |
| MultiPostScore.EligibleTotals | app/services/zama-muti-score.ts:112-115 | the pooled impressions of the eligible posts are never negative |
| MultiPostScore.TotalScore | app/services/zama-muti-score.ts:38-116 | specification of the running total: the sum of the eligible posts' scores in input order (its properties are stated by `ExcludedPostScoreIgnored`, `NoEligibleScore`, `SinglePostBatchScore` and `ZeroEngagementPoisonsTotal`) |
| MultiPostScore.BatchErPercent | app/services/zama-muti-score.ts:119-121 | 0 without pooled impressions; otherwise batch ER% · impressions = 100 · interactions; non-negative for non-negative interactions |
| MultiPostScore.ScoreAll | app/services/zama-muti-score.ts:38-110 | one result per post, entry i being post i's result |
| MultiPostScore.BatchAdvice | app/services/zama-muti-score.ts:123-126 | exactly one batch message: high iff > 8%, low iff < 3%, safe iff in [3%, 8%] |
| MultiPostScore.ScoreEach | app/services/zama-muti-score.ts:38-117 | the loop's results are the per-post results in input order; its totals and total score are over exactly the eligible posts |
| MultiPostScore.CalculateMultiPostScore | app/services/zama-muti-score.ts:29-134 | per-post results aligned with the input; batch ER from the eligible totals; total score; batch advice from the batch ER |
| MultiPostScore.ExcludedPostIgnored | app/services/zama-muti-score.ts:41-49 | inserting an excluded post anywhere leaves the pooled totals unchanged |
| MultiPostScore.ExcludedPostScoreIgnored | app/services/zama-muti-score.ts:41-49 | inserting an excluded post anywhere leaves the total score unchanged |
| MultiPostScore.PooledImpressions | app/services/zama-muti-score.ts:112-121 | pooled impressions are non-negative, and positive exactly when some post is eligible |
| MultiPostScore.NoEligiblePost | app/services/zama-muti-score.ts:119-126 | without an eligible post the batch ER is 0 and the batch message is "low" |
| MultiPostScore.NoEligibleScore | app/services/zama-muti-score.ts:38-116 | without an eligible post the total score is 0 |
| MultiPostScore.SinglePostTotals | app/services/zama-muti-score.ts:112-115 | a batch of one eligible post pools exactly that post |
| MultiPostScore.SinglePostBatchRate | app/services/zama-muti-score.ts:119-121 | a batch of one eligible post reports that post's ER% |
| MultiPostScore.SinglePostBatchScore | app/services/zama-muti-score.ts:116 | a batch of one eligible post totals that post's score |
| MultiPostScore.ZeroEngagementPoisonsTotal | app/services/zama-muti-score.ts:75 | one eligible post without interactions makes the total score non-finite |
| MultiPostScore.EngagedPostsKeepTotalFinite | app/services/zama-muti-score.ts:75 | conversely, when every eligible post has non-negative counters and some interaction, the total score is finite |
| UiFormula.SmartShare | app/_components/ERChecker.tsx:53 | smartShare is never 0: it falls back to 0.7 when the smart count is 0, and is otherwise smart / max(followers, 1) |
| UiFormula.VerifiedShare | app/_components/ERChecker.tsx:54 | verifiedShare · max(followers, 1) = verified; non-negative for a non-negative verified count |
| UiFormula.TrustFactor | app/_components/ERChecker.tsx:55-58 | the trust factor lies in [0.05, 1] and is the 70/30 blend whenever that lies in the range |
| UiFormula.PropFactor | app/_components/MultiPostERCalculator.tsx:64-65 | propFactor is 0.6, 0.8 or 1.0; 0.6 iff propRatio < 0.05, 1.0 iff propRatio ≥ 0.2 |
| UiFormula.PropFactorMonotone | app/_components/MultiPostERCalculator.tsx:65 | propFactor never decreases as propRatio grows |
| UiFormula.AdjustedRate | app/_components/MultiPostERCalculator.tsx:66-70 | 0 without impressions; otherwise ER · effective impressions = interactions; non-negative, and 0 exactly when there are no impressions or no interactions |
| UiFormula.AdjustedRateAtLeastPlain | app/_components/MultiPostERCalculator.tsx:66-70 | with trust and propagation at most 1, the adjusted rate is at least the plain rate |
| UiFormula.LikeHeavyFactor | app/_components/ERChecker.tsx:94 | the last guard keeps half the score exactly when likes / max(impressions, 1) > 0.5 and propRatio < 0.05, and all of it otherwise |
| UiFormula.UiSignals | app/_components/ERChecker.tsx:73-90 | the caller's post multiplier, no verified boost, erMult of the adjusted rate; Clamp finite iff there is engagement; non-negative signals for non-negative inputs |
| ErChecker.PropagationFactor | app/_components/ERChecker.tsx:62-65 | the loop-free step-by-step factor equals `CheckerPropFactor`: the band factor, times 0.6 exactly when impressions exceed 50 · max(followers, 1) |
| ErChecker.PropRatio | app/_components/ERChecker.tsx:60 | propRatio · max(impressions, 1) = retweets + quotes; non-negative for non-negative counters |
| ErChecker.CheckerTrust | app/_components/ERChecker.tsx:53-58 | specification of the trust factor from smartShare (with its fallback to 0.7) and verifiedShare; its bounds are stated by `UiFormula.TrustFactor` |
| ErChecker.CheckerPropFactor | app/_components/ERChecker.tsx:62-65 | propFactor is one of 0.36, 0.48, 0.6, 0.8, 1.0, never above the band factor, and 1 iff propRatio ≥ 0.2 with no reach spike |
| ErChecker.CheckerRate | app/_components/ERChecker.tsx:53-71 | the checker's rate is 0 without impressions, non-negative, and 0 exactly when there are no impressions or no interactions |
| ErChecker.CheckerRateBounds | app/_components/ERChecker.tsx:53-71 | the checker's rate lies between the plain rate and interactions / (0.018 · impressions) |
| ErChecker.EffectiveRate | app/_components/ERChecker.tsx:53-71 | the rate is `CheckerRate`: interactions over impressions · trust (smartShare, verifiedShare) · `CheckerPropFactor`; 0 without impressions; 0 exactly when there are no impressions or interactions; between the plain rate and interactions / (0.018 · impressions) |
| ErChecker.AdjustedRateAtMost | app/_components/ERChecker.tsx:55-71 | with trust ≥ 0.05 and propagation ≥ 0.36 the adjusted rate is at most interactions / (0.018 · impressions) |
| ErChecker.CheckerScore | app/_components/ERChecker.tsx:73-94 | ER > 20% gives 0; otherwise the raw score with post multiplier 1.02 times the second rate guard's factor and the like-heavy factor, and the raw score itself when neither fires; finite iff there are interactions, non-negative for non-negative inputs |
| ErChecker.CheckerSignals | app/_components/ERChecker.tsx:73-90 | specification of the checker's metric chain (`UiSignals` with smartShare and post multiplier 1.02); `CheckerScore` is stated in terms of it |
| ErChecker.RateAdvice | app/_components/ERChecker.tsx:96-98 | at most one ER message: high iff ER > 8%, low iff ER < 3%, none iff in between |
| ErChecker.CalculateTotalEr | app/_components/ERChecker.tsx:50-102 | the echoed counters and ENG; the rate is `CheckerRate` with its bounds; ER > 20% gives 0, otherwise the score is the raw score times the two guard factors; finiteness and sign; at most one ER message: high iff ER > 8%, low iff ER < 3%, none iff in between |
| MultiPostCalculator.AddPost | app/_components/MultiPostERCalculator.tsx:38-42 | the list grows by exactly one default post {1000, 0, 0, 0} at the end, the others unchanged |
| MultiPostCalculator.RemovePost | app/_components/MultiPostERCalculator.tsx:43 | a valid index removes exactly that post, keeping the others in order; any other index changes nothing |
| MultiPostCalculator.Trust | app/_components/MultiPostERCalculator.tsx:58-63 | the trust factor lies in [0.05, 1] |
| MultiPostCalculator.PropRatio | app/_components/MultiPostERCalculator.tsx:64 | propRatio · max(impressions, 1) = retweets + quotes; non-negative for non-negative counters |
| MultiPostCalculator.CalculatorRate | app/_components/MultiPostERCalculator.tsx:58-70 | 0 without impressions; non-negative; 0 exactly when there are no impressions or interactions; at least the plain rate |
| MultiPostCalculator.CountBelowMin | app/_components/MultiPostERCalculator.tsx:54-55 | the number of below-minimum posts is at most the number of posts |
| MultiPostCalculator.NoneBelowMin | app/_components/MultiPostERCalculator.tsx:54-55 | no per-post warning is counted exactly when every post has at least 1000 impressions |
| MultiPostCalculator.CountBelowMinPositions | app/_components/MultiPostERCalculator.tsx:54-55 | the count of warnings equals the number of positions whose post has fewer than 1000 impressions |
| MultiPostCalculator.PostMultiplier | app/_components/MultiPostERCalculator.tsx:111 | postMult lies in [1, 1.4], is 1 + 0.02 · n up to 20 posts and 1.4 from 20 posts on |
| MultiPostCalculator.ScanPosts | app/_components/MultiPostERCalculator.tsx:53-77 | one rate per post in input order, the totals of all posts, and one warning per below-minimum post |
| MultiPostCalculator.Totals | app/_components/MultiPostERCalculator.tsx:46-76 | specification of the running totals: the counters of all posts added up (its properties are stated by `TotalsNonNegative` and `TotalsAgreeWithService`) |
| MultiPostCalculator.PooledScore | app/_components/MultiPostERCalculator.tsx:98-121 | ER_total > 20% gives 0; otherwise the raw score with post multiplier 1 + 0.02 · min(n, 20) times the second rate guard's factor and the like-heavy factor (`PooledFinalScore`), and the raw score itself when neither fires; finite iff the totals have interactions, non-negative for non-negative inputs |
| MultiPostCalculator.PooledSignals | app/_components/MultiPostERCalculator.tsx:98-115 | specification of the pooled metric chain (`UiSignals` over the totals with post multiplier 1 + 0.02 · min(n, 20)); `PooledScore` is stated in terms of it |
| MultiPostCalculator.PooledFinalScore | app/_components/MultiPostERCalculator.tsx:98-121 | specification of the pooled score below the 20% cut: the raw score times `RateGuardFactor` and `LikeHeavyFactor`; `PooledScore` and `CalculateTotalEr` are stated in terms of it |
| MultiPostCalculator.BatchWarnings | app/_components/MultiPostERCalculator.tsx:79-126 | the advice is the per-post warnings followed by exactly `BatchTail`: the total-impressions warning iff total impressions < 10000, then high iff ER > 8%, low iff ER < 3% |
| MultiPostCalculator.BatchTail | app/_components/MultiPostERCalculator.tsx:79-126 | at most two batch warnings, never a per-post one; the total-impressions warning first and iff total impressions < 10000; high iff ER > 8%; low iff ER < 3% |
| MultiPostCalculator.CalculateTotalEr | app/_components/MultiPostERCalculator.tsx:45-137 | per-post rates aligned with the input; totals over all posts; the pooled rate; ER_total > 20% gives 0, otherwise the score is `PooledFinalScore` with n = the number of posts; finiteness and sign; the advice is one warning per below-minimum post followed by exactly `BatchTail` of the total impressions and ER_total |
| MultiPostCalculator.TotalsNonNegative | app/_components/MultiPostERCalculator.tsx:73-76 | non-negative posts give non-negative totals |
| MultiPostCalculator.TotalsAgreeWithService | app/_components/MultiPostERCalculator.tsx:73-76 | with no below-minimum post, the calculator's totals equal the batch service's eligible totals |

## Left out

- Rounding: `toFixed(2)` and `parseFloat` are not modelled. ER% and scores are exact reals.
- MultiPostScore.CalculateMultiPostScore: the batch message is chosen from the exact batch ER%. The source compares the value rounded to two decimals, so they can differ within 0.005 of 3% or 8%.
- `Math.log10`, `Math.log`, `Math.sqrt`, `Math.pow`: a parameter `MathLib`. Only non-negativity on the relevant domains and `pow(s, 1.5) ∈ [0, 1]` are assumed. No concrete score value is derived.
- NaN and −Infinity from the library functions are not modelled. They arise only for negative counters: `Math.log10(0)` and `Math.log(0)` give −Infinity (smartFollowers = −1 in `log10(1 + sf)`, impressions = −1 in `log(1 + impressions)`), and a smaller argument gives NaN. NaN or infinite inputs are not modelled either. Overflow to infinity cannot happen over the reals.
- Formula.SmartSignal, Formula.ReachEfficiency: for negative arguments the model returns whatever the `MathLib` functions give. The source would yield −Infinity (argument 0) or NaN (argument below 0) there.
- React state, the `onChange` handlers (including the in-place edit of one post's field), JSX, charts and styling.
- app/_components/Header.tsx is not part of this model.
- Advice text: the Vietnamese/emoji messages are tags of `Advice.Message`.
