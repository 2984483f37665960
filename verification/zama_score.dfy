/** The single-post scorer (`calculateZamaScore`): a validity guard, the metric
    chain, the penalty and disqualification guards, and the advice list. */
module ZamaScore {
  import opened Numeric
  import opened Advice
  import opened Formula

  /** One post and its audience. The smart-follower count, the supplied smart
      engagement and the verified-follower count are optional in the source and
      are 0 when the caller leaves them out. */
  datatype PostInput = PostInput(
    likes: real,
    retweets: real,
    quotes: real,
    impressions: real,
    followers: real,
    smartFollowers: real,
    smartEngagement: real,
    verifiedFollowers: real)

  /** `erPercent` is ER · 100; the source renders it and the score with two decimals. */
  datatype ScoreResult = ScoreResult(erPercent: real, finalScore: Num, advice: seq<Message>)

  predicate NonNegativeInput(p: PostInput) {
    && 0.0 <= p.likes && 0.0 <= p.retweets && 0.0 <= p.quotes
    && 0.0 <= p.smartFollowers && 0.0 <= p.smartEngagement && 0.0 <= p.verifiedFollowers
  }

  function Interactions(p: PostInput): real {
    p.likes + p.retweets + p.quotes
  }

  /** ER, as a fraction. */
  function Rate(p: PostInput): real
    requires 0.0 < p.impressions
  {
    EngagementRate(p.likes, p.retweets, p.quotes, p.impressions)
  }

  /** Likes per impression (at least one impression). */
  function LikeRate(p: PostInput): (rate: real)
    ensures rate * Max(p.impressions, 1.0) == p.likes
    ensures 0.0 <= p.likes ==> 0.0 <= rate
  {
    p.likes / Max(p.impressions, 1.0)
  }

  /** The propagation share of this record's counters. */
  function PropagationRate(p: PostInput): (rate: real)
    ensures rate * Max(p.impressions, 1.0) == p.retweets + p.quotes
    ensures 0.0 <= p.retweets && 0.0 <= p.quotes ==> 0.0 <= rate
  {
    PropagationShare(p.retweets, p.quotes, p.impressions)
  }

  /** Smart followers per follower (at least one follower). */
  function SmartRatio(p: PostInput): (ratio: real)
    ensures ratio * Max(p.followers, 1.0) == p.smartFollowers
    ensures 0.0 <= p.smartFollowers ==> 0.0 <= ratio
  {
    p.smartFollowers / Max(p.followers, 1.0)
  }

  /** The trust factor that decides the low-smart-audience advice. Because the
      factor 0.8 multiplies the floored ratio, "trust below 0.5" means "fewer
      than 62.5% of the followers are smart". */
  function TrustFactor(p: PostInput): (trust: real)
    ensures 0.04 <= trust <= 1.0
    ensures trust < 0.5 <==> SmartRatio(p) < 0.625
  {
    Min(1.0, Max(0.05, SmartRatio(p)) * 0.8)
  }

  /** The metric chain of a post with a positive number of impressions. */
  function PostSignals(m: MathLib, p: PostInput): Signals
    requires 0.0 < p.impressions
  {
    ServiceSignals(m, p.likes, p.retweets, p.quotes, p.impressions, p.followers,
                   p.smartFollowers, p.verifiedFollowers, p.smartEngagement)
  }

  /** The position of an issue among the anti-gaming guards; 5 for any other message. */
  function IssueRank(msg: Message): nat {
    match msg
    case BelowMinImpressions => 0
    case ReachSpike => 1
    case LikeHeavy => 2
    case LikeRateDisqualified => 3
    case OnlyLikes => 4
    case _ => 5
  }

  /** Only issue messages, in the order the guards run: each ranks above the one before. */
  predicate OrderedIssues(issues: seq<Message>) {
    && (forall i :: 0 <= i < |issues| ==> IssueRank(issues[i]) < 5)
    && (forall i, j :: 0 <= i < j < |issues| ==> IssueRank(issues[i]) < IssueRank(issues[j]))
  }

  function IssueIf(fired: bool, msg: Message): seq<Message> {
    if fired then [msg] else []
  }

  /** The issues of the five anti-gaming guards, given which of them fired. */
  function IssueList(belowMin: bool, spike: bool, likeHeavy: bool, likeDq: bool, onlyLikes: bool): seq<Message> {
    IssueIf(belowMin, BelowMinImpressions) + IssueIf(spike, ReachSpike) + IssueIf(likeHeavy, LikeHeavy)
      + IssueIf(likeDq, LikeRateDisqualified) + IssueIf(onlyLikes, OnlyLikes)
  }

  predicate RanksBelow(issues: seq<Message>, bound: nat) {
    forall i :: 0 <= i < |issues| ==> IssueRank(issues[i]) < bound
  }

  /** Appending the issue of a later guard, if it fired, keeps the guard order. */
  lemma AppendIssue(issues: seq<Message>, fired: bool, msg: Message)
    requires OrderedIssues(issues) && IssueRank(msg) < 5 && RanksBelow(issues, IssueRank(msg))
    ensures OrderedIssues(issues + IssueIf(fired, msg))
    ensures RanksBelow(issues + IssueIf(fired, msg), IssueRank(msg) + 1)
  {
    if !fired {
      assert issues + IssueIf(fired, msg) == issues;
    }
  }

  // The order of the five-guard list is proved one appended guard at a time:
  // each lemma below extends the previous prefix by one `AppendIssue` step, which
  // keeps every proof obligation small for the solver.

  /** The issues of the first two guards are in order, below rank 2. */
  lemma IssuesThroughSpike(belowMin: bool, spike: bool)
    ensures OrderedIssues(IssueIf(belowMin, BelowMinImpressions) + IssueIf(spike, ReachSpike))
    ensures RanksBelow(IssueIf(belowMin, BelowMinImpressions) + IssueIf(spike, ReachSpike), 2)
  {
    AppendIssue(IssueIf(belowMin, BelowMinImpressions), spike, ReachSpike);
  }

  /** The issues of the first three guards are in order, below rank 3. */
  lemma IssuesThroughLikeHeavy(belowMin: bool, spike: bool, likeHeavy: bool)
    ensures var issues := IssueIf(belowMin, BelowMinImpressions) + IssueIf(spike, ReachSpike)
                          + IssueIf(likeHeavy, LikeHeavy);
            OrderedIssues(issues) && RanksBelow(issues, 3)
  {
    IssuesThroughSpike(belowMin, spike);
    AppendIssue(IssueIf(belowMin, BelowMinImpressions) + IssueIf(spike, ReachSpike), likeHeavy, LikeHeavy);
  }

  /** The issues of the first four guards are in order, below rank 4. */
  lemma IssuesThroughLikeDq(belowMin: bool, spike: bool, likeHeavy: bool, likeDq: bool)
    ensures var issues := IssueIf(belowMin, BelowMinImpressions) + IssueIf(spike, ReachSpike)
                          + IssueIf(likeHeavy, LikeHeavy) + IssueIf(likeDq, LikeRateDisqualified);
            OrderedIssues(issues) && RanksBelow(issues, 4)
  {
    IssuesThroughLikeHeavy(belowMin, spike, likeHeavy);
    AppendIssue(IssueIf(belowMin, BelowMinImpressions) + IssueIf(spike, ReachSpike) + IssueIf(likeHeavy, LikeHeavy),
                likeDq, LikeRateDisqualified);
  }

  /** The issues come in guard order, each at most once. */
  lemma IssueListOrdered(belowMin: bool, spike: bool, likeHeavy: bool, likeDq: bool, onlyLikes: bool)
    ensures OrderedIssues(IssueList(belowMin, spike, likeHeavy, likeDq, onlyLikes))
  {
    IssuesThroughLikeDq(belowMin, spike, likeHeavy, likeDq);
    AppendIssue(IssueIf(belowMin, BelowMinImpressions) + IssueIf(spike, ReachSpike) + IssueIf(likeHeavy, LikeHeavy)
                  + IssueIf(likeDq, LikeRateDisqualified),
                onlyLikes, OnlyLikes);
  }

  /** Each issue is present exactly when its guard fired. */
  lemma IssueListMembers(belowMin: bool, spike: bool, likeHeavy: bool, likeDq: bool, onlyLikes: bool)
    ensures var issues := IssueList(belowMin, spike, likeHeavy, likeDq, onlyLikes);
            && (BelowMinImpressions in issues <==> belowMin)
            && (ReachSpike in issues <==> spike)
            && (LikeHeavy in issues <==> likeHeavy)
            && (LikeRateDisqualified in issues <==> likeDq)
            && (OnlyLikes in issues <==> onlyLikes)
  {
  }

  /** The issues `calculateZamaScore` reports for a post, at most one per guard. */
  function Issues(p: PostInput): (issues: seq<Message>)
    ensures |issues| <= 5
  {
    IssueList(p.impressions < 1000.0,
              p.followers < 2000.0 && p.impressions > p.followers * 50.0,
              PropagationRate(p) < 0.01 && 0.05 < LikeRate(p),
              0.5 < LikeRate(p),
              p.quotes < 1.0 && p.retweets < 1.0 && 50.0 < p.likes)
  }

  /** A penalty step so far only scaled `score` by a factor in [0, 1]. */
  predicate Kept(score: Num, current: Num) {
    && (current.Finite? <==> score.Finite?)
    && (score == Finite(0.0) ==> current == Finite(0.0))
    && (score.Finite? && 0.0 <= score.value ==> 0.0 <= current.value <= score.value)
  }

  /** A post's issues come in guard order, and each is reported exactly when its
      guard fires. */
  lemma PostIssues(p: PostInput)
    ensures OrderedIssues(Issues(p))
    ensures BelowMinImpressions in Issues(p) <==> p.impressions < 1000.0
    ensures ReachSpike in Issues(p) <==> p.followers < 2000.0 && p.impressions > p.followers * 50.0
    ensures LikeHeavy in Issues(p) <==> PropagationRate(p) < 0.01 && 0.05 < LikeRate(p)
    ensures LikeRateDisqualified in Issues(p) <==> 0.5 < LikeRate(p)
    ensures OnlyLikes in Issues(p) <==> p.quotes < 1.0 && p.retweets < 1.0 && 50.0 < p.likes
  {
    var belowMin := p.impressions < 1000.0;
    var spike := p.followers < 2000.0 && p.impressions > p.followers * 50.0;
    var likeHeavy := PropagationRate(p) < 0.01 && 0.05 < LikeRate(p);
    var likeDq := 0.5 < LikeRate(p);
    var onlyLikes := p.quotes < 1.0 && p.retweets < 1.0 && 50.0 < p.likes;
    IssueListOrdered(belowMin, spike, likeHeavy, likeDq, onlyLikes);
    IssueListMembers(belowMin, spike, likeHeavy, likeDq, onlyLikes);
  }

  /** The factor of one penalty guard: `factor` when it fired, 1 otherwise. */
  function GuardStep(fired: bool, factor: real): real {
    if fired then factor else 1.0
  }

  /** The score after the four penalty guards of a post the like-rate guard does not
      disqualify: halved under 1000 impressions, ×0.6 for a reach spike, ×0.7 when
      like-heavy, ×0.8 when only liked, in that order. */
  function Penalized(p: PostInput, score: Num): Num {
    score.Times(GuardStep(p.impressions < 1000.0, 0.5))
         .Times(GuardStep(p.followers < 2000.0 && p.impressions > p.followers * 50.0, 0.6))
         .Times(GuardStep(PropagationRate(p) < 0.01 && 0.05 < LikeRate(p), 0.7))
         .Times(GuardStep(p.quotes < 1.0 && p.retweets < 1.0 && 50.0 < p.likes, 0.8))
  }

  /** Scaling by a factor in [0, 1] keeps what `Kept` says. */
  lemma KeptScaled(score: Num, current: Num, factor: real)
    requires Kept(score, current) && 0.0 <= factor <= 1.0
    ensures Kept(score, current.Times(factor))
  {
    if score.Finite? && 0.0 <= score.value {
      ProductNonNegative(current.value, factor);
      ProductMonotone(factor, 1.0, current.value);
    }
  }

  /** The penalties only scale the score by a factor in [0, 1]. */
  lemma PenalizedKept(p: PostInput, score: Num)
    ensures Kept(score, Penalized(p, score))
  {
    var s1 := score.Times(GuardStep(p.impressions < 1000.0, 0.5));
    var s2 := s1.Times(GuardStep(p.followers < 2000.0 && p.impressions > p.followers * 50.0, 0.6));
    var s3 := s2.Times(GuardStep(PropagationRate(p) < 0.01 && 0.05 < LikeRate(p), 0.7));
    KeptScaled(score, score, GuardStep(p.impressions < 1000.0, 0.5));
    KeptScaled(score, s1, GuardStep(p.followers < 2000.0 && p.impressions > p.followers * 50.0, 0.6));
    KeptScaled(score, s2, GuardStep(PropagationRate(p) < 0.01 && 0.05 < LikeRate(p), 0.7));
    KeptScaled(score, s3, GuardStep(p.quotes < 1.0 && p.retweets < 1.0 && 50.0 < p.likes, 0.8));
  }

  /** A post has no issue exactly when none of the five guards fires. */
  lemma NoIssues(p: PostInput)
    ensures Issues(p) == [] <==>
              && 1000.0 <= p.impressions
              && !(p.followers < 2000.0 && p.impressions > p.followers * 50.0)
              && !(PropagationRate(p) < 0.01 && 0.05 < LikeRate(p))
              && LikeRate(p) <= 0.5
              && !(p.quotes < 1.0 && p.retweets < 1.0 && 50.0 < p.likes)
  {
    PostIssues(p);
  }

  /** A post without issues keeps its score. */
  lemma PenalizedNoIssue(p: PostInput, score: Num)
    requires Issues(p) == []
    ensures Penalized(p, score) == score
  {
    NoIssues(p);
    TimesOne(score);
  }

  /** The anti-gaming and eligibility guards: each appends its issue and scales
      the score, except the like-rate guard, which disqualifies. */
  method AntiGamingGuards(p: PostInput, score: Num) returns (finalScore: Num, issues: seq<Message>)
    ensures issues == Issues(p)
    ensures 0.5 < LikeRate(p) ==> finalScore == Finite(0.0)
    ensures LikeRate(p) <= 0.5 ==> finalScore == Penalized(p, score)
    ensures LikeRate(p) <= 0.5 ==> Kept(score, finalScore)
  {
    finalScore := score;
    var propRatio := PropagationRate(p);
    var likeRate := LikeRate(p);
    var belowMin := p.impressions < 1000.0;
    var spike := p.followers < 2000.0 && p.impressions > p.followers * 50.0;
    var likeHeavy := propRatio < 0.01 && likeRate > 0.05;
    var likeDq := likeRate > 0.5;
    var onlyLikes := p.quotes < 1.0 && p.retweets < 1.0 && p.likes > 50.0;

    issues := [];
    if belowMin {
      issues := issues + [BelowMinImpressions];
      finalScore := finalScore.Times(0.5);
    } else {
      TimesOne(finalScore);
    }
    var s1 := finalScore;
    assert issues == IssueIf(belowMin, BelowMinImpressions);
    if spike {
      issues := issues + [ReachSpike];
      finalScore := finalScore.Times(0.6);
    } else {
      TimesOne(finalScore);
    }
    var s2 := finalScore;
    assert issues == IssueIf(belowMin, BelowMinImpressions) + IssueIf(spike, ReachSpike);
    if likeHeavy {
      issues := issues + [LikeHeavy];
      finalScore := finalScore.Times(0.7);
    } else {
      TimesOne(finalScore);
    }
    var s3 := finalScore;
    assert issues == IssueIf(belowMin, BelowMinImpressions) + IssueIf(spike, ReachSpike)
                     + IssueIf(likeHeavy, LikeHeavy);
    if likeDq {
      issues := issues + [LikeRateDisqualified];
      finalScore := Finite(0.0);
    }
    assert issues == IssueIf(belowMin, BelowMinImpressions) + IssueIf(spike, ReachSpike)
                     + IssueIf(likeHeavy, LikeHeavy) + IssueIf(likeDq, LikeRateDisqualified);
    if onlyLikes {
      issues := issues + [OnlyLikes];
      finalScore := finalScore.Times(0.8);
    } else {
      TimesOne(finalScore);
    }
    assert issues == IssueList(belowMin, spike, likeHeavy, likeDq, onlyLikes);
    assert Issues(p) == IssueList(belowMin, spike, likeHeavy, likeDq, onlyLikes);
    assert !likeDq ==> finalScore == s3.Times(GuardStep(onlyLikes, 0.8));
    assert s3 == score.Times(GuardStep(belowMin, 0.5)).Times(GuardStep(spike, 0.6)).Times(GuardStep(likeHeavy, 0.7));
    PenalizedKept(p, score);
  }

  /** The advice that precedes the issues: exactly one ER-band message (high has
      priority over low), the low-smart-audience message when the trust factor
      is below 0.5, and exactly one of the two verified-ratio messages. */
  method AudienceAdvice(p: PostInput) returns (advice: seq<Message>)
    requires 0.0 < p.impressions
    ensures |advice| == (if SmartRatio(p) < 0.625 then 3 else 2)
    ensures advice[0] == (if 0.08 < Rate(p) then ErHigh else if Rate(p) < 0.03 then ErLow else ErSafe)
    ensures forall i :: 0 < i < |advice| ==> !IsErBand(advice[i]) && IssueRank(advice[i]) == 5
    ensures |advice| == 3 ==> advice[1] == LowSmartAudience
    ensures advice[|advice| - 1] ==
              (if 0.1 < VerifiedRatio(p.verifiedFollowers, p.followers) then VerifiedRatioGood
               else VerifiedRatioLow)
  {
    var er := Rate(p);
    var trustFactor := TrustFactor(p);
    var vf := VerifiedRatio(p.verifiedFollowers, p.followers);
    advice := [];
    if er > 0.08 {
      advice := advice + [ErHigh];
    } else if er < 0.03 {
      advice := advice + [ErLow];
    } else {
      advice := advice + [ErSafe];
    }
    if trustFactor < 0.5 {
      advice := advice + [LowSmartAudience];
    }
    if vf > 0.1 {
      advice := advice + [VerifiedRatioGood];
    } else {
      advice := advice + [VerifiedRatioLow];
    }
  }

  /** The score of a post with positive impressions: the metric chain, the rate
      guards, the low-ER penalty and the anti-gaming guards, with their issues. */
  method GuardedScore(m: MathLib, p: PostInput) returns (finalScore: Num, issues: seq<Message>)
    requires 0.0 < p.impressions
    ensures issues == Issues(p)
    // disqualification: nothing after these guards brings the score back above 0
    ensures 0.2 < Rate(p) || 0.5 < LikeRate(p) ==> finalScore == Finite(0.0)
    // otherwise the raw score scaled by the factor of every guard that fired
    ensures Rate(p) <= 0.2 && LikeRate(p) <= 0.5 ==>
              finalScore == Penalized(p, RawScore(m, PostSignals(m, p))
                                           .Times(RateGuardFactor(Rate(p), p.impressions))
                                           .Times(LowErFactor(Rate(p))))
    ensures 0.001 <= Rate(p) <= 0.1 && Issues(p) == [] ==> finalScore == RawScore(m, PostSignals(m, p))
    // the score is a number exactly when the post has some engagement
    ensures NonNegativeInput(p) ==> (finalScore.Finite? <==> 0.0 < Interactions(p))
    // the guards never raise the score and never make it negative
    ensures Sound(m) && NonNegativeInput(p) && finalScore.Finite? ==> 0.0 <= finalScore.value
    ensures Sound(m) && NonNegativeInput(p) && 0.0 < Interactions(p) ==>
              RawScore(m, PostSignals(m, p)).Finite? &&
              finalScore.value <= RawScore(m, PostSignals(m, p)).value
  {
    var er := Rate(p);
    if NonNegativeInput(p) && Interactions(p) == 0.0 {
      assert p.likes == 0.0 && er == 0.0;
      assert LikeRate(p) == 0.0;
    }
    var raw := RawScore(m, PostSignals(m, p));
    if Sound(m) && NonNegativeInput(p) && 0.0 < Interactions(p) {
      RawScoreNonNegative(m, PostSignals(m, p));
    }

    finalScore := RateGuards(raw, er, p.impressions);
    if er < 0.001 {
      finalScore := finalScore.Times(0.5);
    } else {
      TimesOne(finalScore);
    }
    var guarded := finalScore;
    finalScore, issues := AntiGamingGuards(p, finalScore);
    if 0.001 <= er <= 0.1 && Issues(p) == [] {
      TimesOne(raw);
      PenalizedNoIssue(p, guarded);
    }
  }

  /** The returned advice list: the audience advice followed by the issues. */
  method ReportAdvice(p: PostInput, issues: seq<Message>) returns (report: seq<Message>)
    requires 0.0 < p.impressions
    requires OrderedIssues(issues)
    ensures var head := if SmartRatio(p) < 0.625 then 3 else 2;
            && head <= |report|
            && report[0] == (if 0.08 < Rate(p) then ErHigh else if Rate(p) < 0.03 then ErLow else ErSafe)
            && (forall i :: 0 < i < |report| ==> !IsErBand(report[i]))
            && (head == 3 ==> report[1] == LowSmartAudience)
            && report[head - 1] ==
                 (if 0.1 < VerifiedRatio(p.verifiedFollowers, p.followers) then VerifiedRatioGood
                  else VerifiedRatioLow)
            && report[head..] == issues
  {
    var advice := AudienceAdvice(p);
    report := advice + issues;
    assert report[|advice|..] == issues;
    forall i | |advice| <= i < |report|
      ensures !IsErBand(report[i])
    {
      assert report[i] == issues[i - |advice|];
    }
  }

  method CalculateZamaScore(m: MathLib, p: PostInput) returns (r: ScoreResult)
    ensures p.impressions <= 0.0 ==> r == ScoreResult(0.0, Finite(0.0), [InvalidImpressions])
    ensures 0.0 < p.impressions ==> r.erPercent == 100.0 * Rate(p)
    ensures 0.0 < p.impressions && 0.2 < Rate(p) ==> r.finalScore == Finite(0.0)
    ensures 0.0 < p.impressions && Rate(p) <= 0.2 && LikeRate(p) <= 0.5 ==>
              r.finalScore == Penalized(p, RawScore(m, PostSignals(m, p))
                                             .Times(RateGuardFactor(Rate(p), p.impressions))
                                             .Times(LowErFactor(Rate(p))))
    ensures 0.0 < p.impressions && 0.001 <= Rate(p) <= 0.1 && Issues(p) == [] ==>
              r.finalScore == RawScore(m, PostSignals(m, p))
    ensures 0.0 < p.impressions && 0.5 < LikeRate(p) ==>
              r.finalScore == Finite(0.0) && LikeRateDisqualified in r.advice
    ensures 0.0 < p.impressions && NonNegativeInput(p) ==>
              (r.finalScore.Finite? <==> 0.0 < Interactions(p))
    ensures Sound(m) && NonNegativeInput(p) && r.finalScore.Finite? ==> 0.0 <= r.finalScore.value
    // advice: one ER band, the optional audience message, one verified message, the issues
    ensures 0.0 < p.impressions ==>
              var head := if SmartRatio(p) < 0.625 then 3 else 2;
              && head <= |r.advice|
              && r.advice[0] == (if 0.08 < Rate(p) then ErHigh else if Rate(p) < 0.03 then ErLow else ErSafe)
              && (forall i :: 0 < i < |r.advice| ==> !IsErBand(r.advice[i]))
              && (head == 3 ==> r.advice[1] == LowSmartAudience)
              && r.advice[head - 1] ==
                   (if 0.1 < VerifiedRatio(p.verifiedFollowers, p.followers) then VerifiedRatioGood
                    else VerifiedRatioLow)
              && r.advice[head..] == Issues(p)
  {
    if p.impressions <= 0.0 {
      return ScoreResult(0.0, Finite(0.0), [InvalidImpressions]);
    }
    var finalScore, issues := GuardedScore(m, p);
    PostIssues(p);
    var advice := ReportAdvice(p, issues);
    r := ScoreResult(Rate(p) * 100.0, finalScore, advice);
    var head := if SmartRatio(p) < 0.625 then 3 else 2;
    if 0.5 < LikeRate(p) {
      assert LikeRateDisqualified in advice[head..];
    }
  }
}
