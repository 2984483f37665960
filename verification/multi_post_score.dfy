/** The batch scorer (`calculateMultiPostScore`): every post of one account is
    scored on its own, posts under 1000 impressions are excluded, and the
    eligible posts are pooled into a batch engagement rate and a total score. */
module MultiPostScore {
  import opened Numeric
  import opened Advice
  import opened Formula
  import SmartEngagement

  datatype Post = Post(likes: real, retweets: real, quotes: real, impressions: real)

  /** The account the posts belong to; the smart and verified counts default to 0. */
  datatype Audience = Audience(followers: real, smartFollowers: real, verifiedFollowers: real)

  /** `erPercent` is ER · 100; the source rounds the three numbers to two decimals. */
  datatype PostResult = PostResult(erPercent: real, finalScore: Num, smartEngagement: real, advice: seq<Message>)

  datatype BatchResult = BatchResult(
    totalErPercent: real,
    totalScore: Num,
    perPost: seq<PostResult>,
    advice: seq<Message>)

  const MinImpressions: real := 1000.0

  predicate Eligible(p: Post) {
    MinImpressions <= p.impressions
  }

  predicate NonNegativeCounts(p: Post) {
    0.0 <= p.likes && 0.0 <= p.retweets && 0.0 <= p.quotes
  }

  predicate NonNegativeAudience(a: Audience) {
    0.0 <= a.smartFollowers && 0.0 <= a.verifiedFollowers
  }

  function Interactions(p: Post): real {
    p.likes + p.retweets + p.quotes
  }

  function Rate(p: Post): real
    requires Eligible(p)
  {
    EngagementRate(p.likes, p.retweets, p.quotes, p.impressions)
  }

  /** The smart engagement the scorer estimates inline: the engagement times the
      smart share of the followers, 0 without followers. */
  function InlineSmartEngagement(p: Post, a: Audience): real {
    var eng := Engagement(p.likes, p.retweets, p.quotes, p.impressions);
    if a.followers > 0.0 then eng * (a.smartFollowers / a.followers) else 0.0
  }

  /** The signals of one post with the audience's counts. */
  function PostSignals(m: MathLib, p: Post, a: Audience): Signals
    requires Eligible(p)
  {
    ServiceSignals(m, p.likes, p.retweets, p.quotes, p.impressions,
                   a.followers, a.smartFollowers, a.verifiedFollowers, InlineSmartEngagement(p, a))
  }

  /** The score of an eligible post: the metric chain with the audience's smart
      engagement, the two rate guards and the low-ER penalty. */
  function PostScore(m: MathLib, p: Post, a: Audience): (score: Num)
    requires Eligible(p)
    ensures 0.2 < Rate(p) ==> score == Finite(0.0)
    ensures Rate(p) <= 0.2 ==>
              score == RawScore(m, PostSignals(m, p, a))
                         .Times(RateGuardFactor(Rate(p), p.impressions))
                         .Times(LowErFactor(Rate(p)))
    ensures 0.001 <= Rate(p) <= 0.1 ==> score == RawScore(m, PostSignals(m, p, a))
    ensures NonNegativeCounts(p) ==> (score.Finite? <==> 0.0 < Interactions(p))
    ensures Sound(m) && NonNegativeCounts(p) && NonNegativeAudience(a) && score.Finite? ==>
              0.0 <= score.value
  {
    var er := Rate(p);
    var raw := RawScore(m, PostSignals(m, p, a));
    PostRawScoreFinite(m, p, a);
    PostRawScoreNonNegative(m, p, a);
    var guarded := RateGuards(raw, er, p.impressions);
    TimesOne(raw);
    TimesOne(guarded);
    if er < 0.001 then guarded.Times(0.5) else guarded
  }

  /** The raw score of a post is finite exactly when it has interactions ... */
  lemma PostRawScoreFinite(m: MathLib, p: Post, a: Audience)
    requires Eligible(p)
    ensures NonNegativeCounts(p) ==> (RawScore(m, PostSignals(m, p, a)).Finite? <==> 0.0 < Interactions(p))
  {
    var s := PostSignals(m, p, a);
    assert NonNegativeCounts(p) ==> (s.clamp.Finite? <==> 0.0 < Interactions(p));
  }

  /** ... and never negative with a sound math library and non-negative counts. */
  lemma PostRawScoreNonNegative(m: MathLib, p: Post, a: Audience)
    requires Eligible(p)
    ensures Sound(m) && NonNegativeCounts(p) && NonNegativeAudience(a) && RawScore(m, PostSignals(m, p, a)).Finite? ==>
              0.0 <= RawScore(m, PostSignals(m, p, a)).value
  {
    var s := PostSignals(m, p, a);
    if Sound(m) && NonNegativeCounts(p) && NonNegativeAudience(a) && RawScore(m, s).Finite? {
      assert 0.0 <= InlineSmartEngagement(p, a) by {
        if a.followers > 0.0 {
          ProductNonNegative(Engagement(p.likes, p.retweets, p.quotes, p.impressions),
                             a.smartFollowers / a.followers);
        }
      }
      assert s.NonNegative();
      RawScoreNonNegative(m, s);
    }
  }


  /** The advice of an eligible post: its ER band, the low-smart-audience message
      when fewer than 20% of the followers are smart, and the verified message
      only when the verified ratio is good. */
  function PostAdvice(p: Post, a: Audience): (advice: seq<Message>)
    requires Eligible(p)
    ensures 1 <= |advice| <= 3
    ensures advice[0] == (if 0.08 < Rate(p) then ErHigh else if Rate(p) < 0.03 then ErLow else ErSafe)
    ensures forall i :: 0 < i < |advice| ==> !IsErBand(advice[i])
    ensures LowSmartAudience in advice <==> 0.0 < a.followers && a.smartFollowers / a.followers < 0.2
    ensures VerifiedRatioGood in advice <==> 0.1 < VerifiedRatio(a.verifiedFollowers, a.followers)
    ensures VerifiedRatioLow !in advice
    // position by position, in the order the messages are pushed
    ensures |advice| == 1 + (if LowSmartAudience in advice then 1 else 0)
                          + (if VerifiedRatioGood in advice then 1 else 0)
    ensures LowSmartAudience in advice ==> advice[1] == LowSmartAudience
    ensures VerifiedRatioGood in advice ==> advice[|advice| - 1] == VerifiedRatioGood
  {
    var er := Rate(p);
    var band := if er > 0.08 then ErHigh else if er < 0.03 then ErLow else ErSafe;
    var audience := if a.followers > 0.0 && a.smartFollowers / a.followers < 0.2 then [LowSmartAudience] else [];
    var verified :=
      if VerifiedRatio(a.verifiedFollowers, a.followers) > 0.1 then [VerifiedRatioGood] else [];
    [band] + audience + verified
  }

  /** The result the loop pushes for one post. */
  function ScorePost(m: MathLib, p: Post, a: Audience): (r: PostResult)
    ensures !Eligible(p) ==> r == PostResult(0.0, Finite(0.0), 0.0, [PostExcluded])
    ensures Eligible(p) ==> r.erPercent == 100.0 * Rate(p)
    // the inline estimate agrees with the smart-engagement service
    ensures Eligible(p) ==>
              r.smartEngagement ==
                SmartEngagement.Estimate(Engagement(p.likes, p.retweets, p.quotes, p.impressions),
                                         a.smartFollowers, a.followers)
    ensures Eligible(p) ==> PostExcluded !in r.advice
    ensures Eligible(p) ==> r.finalScore == PostScore(m, p, a) && r.advice == PostAdvice(p, a)
  {
    if !Eligible(p) then
      PostResult(0.0, Finite(0.0), 0.0, [PostExcluded])
    else
      var eng := Engagement(p.likes, p.retweets, p.quotes, p.impressions);
      var smartEngagement := InlineSmartEngagement(p, a);
      assert smartEngagement == SmartEngagement.Estimate(eng, a.smartFollowers, a.followers) by {
        if a.followers > 0.0 {
          var share := a.smartFollowers / a.followers;
          assert smartEngagement == eng * share;
        }
      }
      PostResult(Rate(p) * 100.0, PostScore(m, p, a), smartEngagement, PostAdvice(p, a))
  }

  /** The pooled counters of the eligible posts (the loop's running totals); the
      pooled impressions are never negative. */
  function EligibleTotals(posts: seq<Post>): (t: Post)
    ensures 0.0 <= t.impressions
    decreases |posts|
  {
    if |posts| == 0 then Post(0.0, 0.0, 0.0, 0.0)
    else
      var t := EligibleTotals(posts[..|posts| - 1]);
      var p := posts[|posts| - 1];
      if Eligible(p) then Pool(t, p) else t
  }

  /** Adds a post's counters to the running totals. */
  function Pool(t: Post, p: Post): (sum: Post)
    ensures Interactions(sum) == Interactions(t) + Interactions(p)
    ensures sum.impressions == t.impressions + p.impressions
  {
    Post(t.likes + p.likes, t.retweets + p.retweets, t.quotes + p.quotes, t.impressions + p.impressions)
  }

  /** The sum of the eligible posts' scores, before rounding. */
  function TotalScore(m: MathLib, posts: seq<Post>, a: Audience): Num
    decreases |posts|
  {
    if |posts| == 0 then Finite(0.0)
    else
      var total := TotalScore(m, posts[..|posts| - 1], a);
      var p := posts[|posts| - 1];
      if Eligible(p) then total.Plus(PostScore(m, p, a)) else total
  }

  /** The batch engagement rate in percent; 0 when no post is eligible. */
  function BatchErPercent(t: Post): (pct: real)
    ensures t.impressions <= 0.0 ==> pct == 0.0
    ensures 0.0 < t.impressions ==> pct * t.impressions == 100.0 * Interactions(t)
    ensures 0.0 <= Interactions(t) ==> 0.0 <= pct
  {
    if t.impressions > 0.0 then Interactions(t) / t.impressions * 100.0 else 0.0
  }

  /** The batch message: exactly one, chosen by the batch ER in percent. */
  function BatchAdvice(totalErPercent: real): (advice: seq<Message>)
    ensures |advice| == 1
    ensures advice[0] == TotalErHigh <==> 8.0 < totalErPercent
    ensures advice[0] == TotalErLow <==> totalErPercent < 3.0
    ensures advice[0] == TotalErSafe <==> 3.0 <= totalErPercent <= 8.0
  {
    if totalErPercent > 8.0 then [TotalErHigh]
    else if totalErPercent < 3.0 then [TotalErLow]
    else [TotalErSafe]
  }

  /** The results the loop pushes for `posts`, one per post. */
  function ScoreAll(m: MathLib, posts: seq<Post>, a: Audience): (results: seq<PostResult>)
    ensures |results| == |posts|
    ensures forall i :: 0 <= i < |posts| ==> results[i] == ScorePost(m, posts[i], a)
    decreases |posts|
  {
    if |posts| == 0 then []
    else ScoreAll(m, posts[..|posts| - 1], a) + [ScorePost(m, posts[|posts| - 1], a)]
  }

  /** The `forEach` over the posts: one result per post, and the running totals
      of the eligible posts. */
  method ScoreEach(m: MathLib, posts: seq<Post>, a: Audience)
    returns (results: seq<PostResult>, totals: Post, totalFinalScore: Num)
    ensures results == ScoreAll(m, posts, a)
    ensures totals == EligibleTotals(posts)
    ensures totalFinalScore == TotalScore(m, posts, a)
  {
    results := [];
    totals := Post(0.0, 0.0, 0.0, 0.0);
    totalFinalScore := Finite(0.0);

    for i := 0 to |posts|
      invariant results == ScoreAll(m, posts[..i], a)
      invariant EligibleTotals(posts[..i]) == totals
      invariant TotalScore(m, posts[..i], a) == totalFinalScore
    {
      var post := posts[i];
      var result := ScorePost(m, post, a);
      PrefixStep(m, posts, i, a);
      results := results + [result];
      if !Eligible(post) {
        continue;
      }
      totals := Pool(totals, post);
      totalFinalScore := totalFinalScore.Plus(result.finalScore);
    }
    assert posts[..|posts|] == posts;
  }

  /** One more post of the prefix: the totals and the total score grow by it
      exactly when it is eligible. */
  lemma PrefixStep(m: MathLib, posts: seq<Post>, i: nat, a: Audience)
    requires i < |posts|
    ensures ScoreAll(m, posts[..i + 1], a) == ScoreAll(m, posts[..i], a) + [ScorePost(m, posts[i], a)]
    ensures EligibleTotals(posts[..i + 1]) ==
              if Eligible(posts[i]) then Pool(EligibleTotals(posts[..i]), posts[i]) else EligibleTotals(posts[..i])
    ensures TotalScore(m, posts[..i + 1], a) ==
              if Eligible(posts[i]) then TotalScore(m, posts[..i], a).Plus(PostScore(m, posts[i], a))
              else TotalScore(m, posts[..i], a)
  {
    assert posts[..i + 1][..i] == posts[..i] && posts[..i + 1][i] == posts[i];
  }

  method CalculateMultiPostScore(m: MathLib, posts: seq<Post>, a: Audience) returns (r: BatchResult)
    ensures |r.perPost| == |posts|
    ensures forall i :: 0 <= i < |posts| ==> r.perPost[i] == ScorePost(m, posts[i], a)
    ensures r.totalErPercent == BatchErPercent(EligibleTotals(posts))
    ensures r.totalScore == TotalScore(m, posts, a)
    ensures r.advice == BatchAdvice(r.totalErPercent)
  {
    var results, totals, totalFinalScore := ScoreEach(m, posts, a);
    var totalEr := if totals.impressions > 0.0
      then (totals.likes + totals.retweets + totals.quotes) / totals.impressions * 100.0
      else 0.0;
    r := BatchResult(totalEr, totalFinalScore, results, BatchAdvice(totalEr));
  }

  /** An excluded post, wherever it stands, changes neither the pooled totals ... */
  lemma {:induction false} ExcludedPostIgnored(xs: seq<Post>, p: Post, ys: seq<Post>)
    requires !Eligible(p)
    ensures EligibleTotals(xs + [p] + ys) == EligibleTotals(xs + ys)
    decreases |ys|
  {
    if |ys| == 0 {
      assert xs + [p] + ys == xs + [p] && (xs + [p])[..|xs|] == xs;
      assert xs + ys == xs;
    } else {
      var init := ys[..|ys| - 1];
      ExcludedPostIgnored(xs, p, init);
      assert (xs + [p] + ys)[..|xs + [p] + ys| - 1] == xs + [p] + init;
      assert (xs + ys)[..|xs + ys| - 1] == xs + init;
      assert (xs + [p] + ys)[|xs + [p] + ys| - 1] == (xs + ys)[|xs + ys| - 1];
    }
  }

  /** ... nor the total score. */
  lemma {:induction false} ExcludedPostScoreIgnored(m: MathLib, xs: seq<Post>, p: Post, ys: seq<Post>, a: Audience)
    requires !Eligible(p)
    ensures TotalScore(m, xs + [p] + ys, a) == TotalScore(m, xs + ys, a)
    decreases |ys|
  {
    if |ys| == 0 {
      assert xs + [p] + ys == xs + [p] && (xs + [p])[..|xs|] == xs;
      assert xs + ys == xs;
    } else {
      var init := ys[..|ys| - 1];
      ExcludedPostScoreIgnored(m, xs, p, init, a);
      assert (xs + [p] + ys)[..|xs + [p] + ys| - 1] == xs + [p] + init;
      assert (xs + ys)[..|xs + ys| - 1] == xs + init;
      assert (xs + [p] + ys)[|xs + [p] + ys| - 1] == (xs + ys)[|xs + ys| - 1];
    }
  }

  /** The pooled impressions are positive exactly when some post is eligible. */
  lemma {:induction false} PooledImpressions(posts: seq<Post>)
    ensures 0.0 <= EligibleTotals(posts).impressions
    ensures 0.0 < EligibleTotals(posts).impressions <==>
              exists i :: 0 <= i < |posts| && Eligible(posts[i])
    decreases |posts|
  {
    if |posts| > 0 {
      var init := posts[..|posts| - 1];
      PooledImpressions(init);
      if exists i :: 0 <= i < |init| && Eligible(init[i]) {
        var i :| 0 <= i < |init| && Eligible(init[i]);
        assert posts[i] == init[i];
      }
      if exists i :: 0 <= i < |posts| && Eligible(posts[i]) {
        var i :| 0 <= i < |posts| && Eligible(posts[i]);
        if i < |posts| - 1 {
          assert init[i] == posts[i];
        }
      }
    }
  }

  /** Without an eligible post the batch ER is 0 and the batch is told its ER is low. */
  lemma NoEligiblePost(posts: seq<Post>)
    requires forall i :: 0 <= i < |posts| ==> !Eligible(posts[i])
    ensures BatchErPercent(EligibleTotals(posts)) == 0.0
    ensures BatchAdvice(BatchErPercent(EligibleTotals(posts))) == [TotalErLow]
  {
    PooledImpressions(posts);
  }

  /** ... and its total score is 0. */
  lemma {:induction false} NoEligibleScore(m: MathLib, posts: seq<Post>, a: Audience)
    requires forall i :: 0 <= i < |posts| ==> !Eligible(posts[i])
    ensures TotalScore(m, posts, a) == Finite(0.0)
    decreases |posts|
  {
    if |posts| > 0 {
      var init := posts[..|posts| - 1];
      assert forall i :: 0 <= i < |init| ==> init[i] == posts[i];
      NoEligibleScore(m, init, a);
    }
  }

  /** A batch of one eligible post pools exactly that post's counters. */
  lemma SinglePostTotals(p: Post)
    requires Eligible(p)
    ensures EligibleTotals([p]) == p
  {
    assert [p][..0] == [];
  }

  /** A batch of one eligible post reports that post's ER (see `ScorePost`) ... */
  lemma SinglePostBatchRate(p: Post)
    requires Eligible(p)
    ensures BatchErPercent(EligibleTotals([p])) == 100.0 * Rate(p)
  {
    var rate := (p.likes + p.retweets + p.quotes) / p.impressions;
    assert Rate(p) == rate;
    assert BatchErPercent(p) == rate * 100.0;
    SinglePostTotals(p);
  }

  /** ... and that post's score. */
  lemma SinglePostBatchScore(m: MathLib, p: Post, a: Audience)
    requires Eligible(p)
    ensures TotalScore(m, [p], a) == ScorePost(m, p, a).finalScore
  {
    assert [p][..0] == [];
  }

  /** One eligible post without any interaction makes the total score non-finite:
      its clamp ratio is 0/0, and the sum carries that on. */
  lemma {:induction false} ZeroEngagementPoisonsTotal(m: MathLib, posts: seq<Post>, a: Audience, k: nat)
    requires k < |posts| && Eligible(posts[k])
    requires NonNegativeCounts(posts[k]) && Interactions(posts[k]) == 0.0
    ensures TotalScore(m, posts, a) == NonFinite
    decreases |posts|
  {
    var init := posts[..|posts| - 1];
    if k < |posts| - 1 {
      assert init[k] == posts[k];
      ZeroEngagementPoisonsTotal(m, init, a, k);
    } else {
      assert !PostScore(m, posts[k], a).Finite?;
    }
  }

  /** Conversely, the batch total stays finite when every eligible post has
      non-negative counters and some interaction. */
  lemma {:induction false} EngagedPostsKeepTotalFinite(m: MathLib, posts: seq<Post>, a: Audience)
    requires forall i :: 0 <= i < |posts| && Eligible(posts[i]) ==>
               NonNegativeCounts(posts[i]) && 0.0 < Interactions(posts[i])
    ensures TotalScore(m, posts, a).Finite?
    decreases |posts|
  {
    if |posts| > 0 {
      var init := posts[..|posts| - 1];
      assert forall i :: 0 <= i < |init| ==> init[i] == posts[i];
      EngagedPostsKeepTotalFinite(m, init, a);
    }
  }
}
