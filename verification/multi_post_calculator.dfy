/** The multi-post calculator component: an editable list of posts, and its
    `calculateTotalER`, which rates every post on its own and then scores the
    pooled counters of all posts. */
module MultiPostCalculator {
  import opened Numeric
  import opened Advice
  import opened Formula
  import opened UiFormula
  import MultiPostScore

  datatype Post = Post(impressions: real, likes: real, retweets: real, quotes: real)

  datatype Audience = Audience(followers: real, verified: real, smartFollowers: real)

  datatype CalcResult = CalcResult(
    erTotal: real,
    postErs: seq<real>,
    finalScore: Num,
    advice: seq<Message>,
    likes: real,
    retweets: real,
    quotes: real)

  const MinImpressions: real := 1000.0
  const MinTotalImpressions: real := 10000.0

  /** The post a new row starts with. */
  const DefaultPost: Post := Post(1000.0, 0.0, 0.0, 0.0)

  /** `addPost`: the list with one default post appended. */
  function AddPost(posts: seq<Post>): (r: seq<Post>)
    ensures |r| == |posts| + 1
    ensures r[..|posts|] == posts
    ensures r[|posts|] == DefaultPost
  {
    posts + [DefaultPost]
  }

  /** `removePost`: keeps every post whose position differs from `index`. */
  function RemovePost(posts: seq<Post>, index: int): (r: seq<Post>)
    ensures 0 <= index < |posts| ==> r == posts[..index] + posts[index + 1..]
    ensures !(0 <= index < |posts|) ==> r == posts
    decreases |posts|
  {
    if |posts| == 0 then []
    else
      var init := posts[..|posts| - 1];
      var last := posts[|posts| - 1];
      var kept := RemovePost(init, index);
      assert posts == init + [last];
      if index == |posts| - 1 then
        assert kept == init;
        kept
      else
        assert 0 <= index < |init| ==>
          kept + [last] == posts[..index] + posts[index + 1..] by {
          if 0 <= index < |init| {
            assert init[..index] == posts[..index];
            assert init[index + 1..] + [last] == posts[index + 1..];
          }
        }
        kept + [last]
  }

  predicate NonNegativeCounts(p: Post) {
    0.0 <= p.impressions && 0.0 <= p.likes && 0.0 <= p.retweets && 0.0 <= p.quotes
  }

  function Interactions(p: Post): real {
    p.likes + p.retweets + p.quotes
  }

  /** The propagation share of this record's counters. */
  function PropRatio(p: Post): (pr: real)
    ensures pr * Max(p.impressions, 1.0) == p.retweets + p.quotes
    ensures NonNegativeCounts(p) ==> 0.0 <= pr
  {
    PropagationShare(p.retweets, p.quotes, p.impressions)
  }

  function Trust(a: Audience): (trust: real)
    ensures 0.05 <= trust <= 1.0
  {
    TrustFactor(SmartShare(a.smartFollowers, a.followers), VerifiedShare(a.verified, a.followers))
  }

  /** The rate over effective impressions, for one post or for the pooled totals. */
  function CalculatorRate(a: Audience, p: Post): (er: real)
    ensures p.impressions <= 0.0 ==> er == 0.0
    ensures NonNegativeCounts(p) ==> 0.0 <= er
    ensures NonNegativeCounts(p) ==> (er == 0.0 <==> p.impressions == 0.0 || Interactions(p) == 0.0)
    ensures NonNegativeCounts(p) && 0.0 < p.impressions ==> Interactions(p) / p.impressions <= er
  {
    var trust := Trust(a);
    var pf := PropFactor(PropRatio(p));
    assert NonNegativeCounts(p) && 0.0 < p.impressions ==>
             Interactions(p) / p.impressions <= AdjustedRate(Interactions(p), p.impressions, trust, pf) by {
      if NonNegativeCounts(p) && 0.0 < p.impressions {
        AdjustedRateAtLeastPlain(Interactions(p), p.impressions, trust, pf);
      }
    }
    AdjustedRate(Interactions(p), p.impressions, trust, pf)
  }

  /** The counters of all posts added up (the loop's running totals). */
  function Totals(posts: seq<Post>): Post
    decreases |posts|
  {
    if |posts| == 0 then Post(0.0, 0.0, 0.0, 0.0)
    else
      var t := Totals(posts[..|posts| - 1]);
      var p := posts[|posts| - 1];
      Post(t.impressions + p.impressions, t.likes + p.likes, t.retweets + p.retweets, t.quotes + p.quotes)
  }

  /** How many posts are below the per-post minimum. */
  function CountBelowMin(posts: seq<Post>): (n: nat)
    ensures n <= |posts|
    decreases |posts|
  {
    if |posts| == 0 then 0
    else CountBelowMin(posts[..|posts| - 1]) + (if posts[|posts| - 1].impressions < MinImpressions then 1 else 0)
  }

  /** No warning is counted exactly when every post reaches the minimum. */
  lemma {:induction false} NoneBelowMin(posts: seq<Post>)
    ensures CountBelowMin(posts) == 0 <==> forall i :: 0 <= i < |posts| ==> MinImpressions <= posts[i].impressions
    decreases |posts|
  {
    if |posts| > 0 {
      var init := posts[..|posts| - 1];
      NoneBelowMin(init);
      assert forall i :: 0 <= i < |init| ==> init[i] == posts[i];
    }
  }

  /** The count is the number of positions holding a post below the minimum. */
  lemma {:induction false} CountBelowMinPositions(posts: seq<Post>)
    ensures CountBelowMin(posts) == |set i | 0 <= i < |posts| && posts[i].impressions < MinImpressions|
    decreases |posts|
  {
    if |posts| > 0 {
      var n := |posts| - 1;
      var init := posts[..n];
      CountBelowMinPositions(init);
      var before := set i | 0 <= i < |init| && init[i].impressions < MinImpressions;
      var after := set i | 0 <= i < |posts| && posts[i].impressions < MinImpressions;
      if posts[n].impressions < MinImpressions {
        assert after == before + {n};
      } else {
        assert after == before;
      }
    }
  }

  /** The post multiplier: 2% per post, for at most 20 posts. */
  function PostMultiplier(count: nat): (pm: real)
    ensures 1.0 <= pm <= 1.4
    ensures 20 <= count ==> pm == 1.4
    ensures count <= 20 ==> pm == 1.0 + 0.02 * count as real
  {
    1.0 + 0.02 * Min(count as real, 20.0)
  }

  /** The `for` loop: one adjusted rate per post, one warning per post under
      1000 impressions, and the totals of all posts, below-minimum ones included. */
  method ScanPosts(a: Audience, posts: seq<Post>) returns (postErs: seq<real>, totals: Post, advice: seq<Message>)
    ensures |postErs| == |posts|
    ensures forall i :: 0 <= i < |posts| ==> postErs[i] == CalculatorRate(a, posts[i])
    ensures totals == Totals(posts)
    ensures |advice| == CountBelowMin(posts)
    ensures forall i :: 0 <= i < |advice| ==> advice[i] == PostBelowMinImpressions
  {
    totals := Post(0.0, 0.0, 0.0, 0.0);
    postErs := [];
    advice := [];

    for i := 0 to |posts|
      invariant |postErs| == i
      invariant forall j :: 0 <= j < i ==> postErs[j] == CalculatorRate(a, posts[j])
      invariant totals == Totals(posts[..i])
      invariant |advice| == CountBelowMin(posts[..i])
      invariant forall j :: 0 <= j < |advice| ==> advice[j] == PostBelowMinImpressions
    {
      var p := posts[i];
      ScanStep(posts, i);
      if p.impressions < MinImpressions {
        advice := advice + [PostBelowMinImpressions];
      }

      var smartShare := SmartShare(a.smartFollowers, a.followers);
      var verifiedShare := VerifiedShare(a.verified, a.followers);
      var trustFactor := TrustFactor(smartShare, verifiedShare);
      var propRatio := (p.retweets + p.quotes) / Max(p.impressions, 1.0);
      var propFactor := PropFactor(propRatio);
      var er := AdjustedRate(p.likes + p.retweets + p.quotes, p.impressions, trustFactor, propFactor);
      assert er == CalculatorRate(a, p);
      postErs := postErs + [er];

      totals := Post(totals.impressions + p.impressions, totals.likes + p.likes,
                     totals.retweets + p.retweets, totals.quotes + p.quotes);
    }
    assert posts[..|posts|] == posts;
  }

  /** One more post of the prefix: the totals grow by its counters, and the count
      of below-minimum posts by one exactly when it is below the minimum. */
  lemma ScanStep(posts: seq<Post>, i: nat)
    requires i < |posts|
    ensures var t := Totals(posts[..i]);
            var p := posts[i];
            Totals(posts[..i + 1]) ==
              Post(t.impressions + p.impressions, t.likes + p.likes, t.retweets + p.retweets, t.quotes + p.quotes)
    ensures CountBelowMin(posts[..i + 1]) ==
              CountBelowMin(posts[..i]) + (if posts[i].impressions < MinImpressions then 1 else 0)
  {
    assert posts[..i + 1][..i] == posts[..i] && posts[..i + 1][i] == posts[i];
  }

  /** The signals of the pooled counters, with the count-based post multiplier. */
  function PooledSignals(m: MathLib, a: Audience, totals: Post, count: nat, er: real): Signals {
    UiSignals(m, totals.likes, totals.retweets, totals.quotes, totals.impressions, a.followers,
              a.smartFollowers, er, SmartShare(a.smartFollowers, a.followers), PostMultiplier(count))
  }

  /** The pooled score of a batch that is not disqualified: the raw score scaled by
      the factor of the second rate guard and by that of the like-heavy guard. */
  function PooledFinalScore(m: MathLib, a: Audience, totals: Post, count: nat, er: real): Num {
    RawScore(m, PooledSignals(m, a, totals, count, er))
      .Times(RateGuardFactor(er, totals.impressions))
      .Times(LikeHeavyFactor(totals.likes, totals.retweets, totals.quotes, totals.impressions))
  }

  /** The pooled score: the metric chain on the totals with the count-based post
      multiplier, the two rate guards and the halving of a like-heavy batch that
      hardly spreads. */
  method PooledScore(m: MathLib, a: Audience, totals: Post, count: nat, er: real) returns (finalScore: Num)
    requires er == CalculatorRate(a, totals)
    ensures 0.2 < er ==> finalScore == Finite(0.0)
    ensures er <= 0.2 ==> finalScore == PooledFinalScore(m, a, totals, count, er)
    ensures er <= 0.1 && LikeHeavyFactor(totals.likes, totals.retweets, totals.quotes, totals.impressions) == 1.0 ==>
              finalScore == RawScore(m, PooledSignals(m, a, totals, count, er))
    ensures NonNegativeCounts(totals) ==> (finalScore.Finite? <==> 0.0 < Interactions(totals))
    ensures Sound(m) && NonNegativeCounts(totals) && 0.0 <= a.smartFollowers && finalScore.Finite? ==>
              0.0 <= finalScore.value
  {
    var smartShare := SmartShare(a.smartFollowers, a.followers);
    var propRatio := PropRatio(totals);
    var s := UiSignals(m, totals.likes, totals.retweets, totals.quotes, totals.impressions, a.followers,
                       a.smartFollowers, er, smartShare, PostMultiplier(count));
    if NonNegativeCounts(totals) {
      ProductNonNegative(er, totals.impressions);
      if 0.0 < Interactions(totals) && 0.0 < totals.impressions {
        ProductPositive(er, totals.impressions);
      }
    }
    var raw := RawScore(m, s);
    if Sound(m) && NonNegativeCounts(totals) && 0.0 <= a.smartFollowers && s.clamp.Finite? {
      RawScoreNonNegative(m, s);
    }
    TimesOne(raw);

    var guarded := RateGuards(raw, er, totals.impressions);
    finalScore := guarded;
    if totals.likes / Max(totals.impressions, 1.0) > 0.5 && propRatio < 0.05 {
      finalScore := finalScore.Times(0.5);
    } else {
      TimesOne(guarded);
    }
  }

  /** The batch warnings after the per-post ones: the total-impressions warning,
      then at most one ER message. */
  function BatchTail(totalImpressions: real, erTotal: real): (tail: seq<Message>)
    ensures |tail| <= 2
    ensures PostBelowMinImpressions !in tail
    ensures TotalBelowMinImpressions in tail <==> totalImpressions < MinTotalImpressions
    ensures TotalBelowMinImpressions in tail ==> tail[0] == TotalBelowMinImpressions
    ensures ErHigh in tail <==> 0.08 < erTotal
    ensures ErLow in tail <==> erTotal < 0.03
  {
    (if totalImpressions < MinTotalImpressions then [TotalBelowMinImpressions] else [])
    + (if 0.08 < erTotal then [ErHigh] else [])
    + (if erTotal < 0.03 then [ErLow] else [])
  }

  /** Behind a run of per-post warnings, every other message is in the whole list
      exactly when it is in the tail. */
  lemma WarningsAfterPerPost(perPost: seq<Message>, tail: seq<Message>)
    requires forall i :: 0 <= i < |perPost| ==> perPost[i] == PostBelowMinImpressions
    ensures forall msg :: msg != PostBelowMinImpressions ==> (msg in perPost + tail <==> msg in tail)
  {
    forall msg | msg != PostBelowMinImpressions
      ensures msg in perPost + tail <==> msg in tail
    {
      assert msg !in perPost;
    }
  }

  /** The layout of the calculator's advice: `k` per-post warnings, then exactly the
      batch tail, so the total-impressions warning comes right after the per-post
      ones and each batch message appears exactly when its condition holds. */
  predicate WarningLayout(advice: seq<Message>, k: nat, totalImpressions: real, erTotal: real) {
    && k <= |advice| <= k + 2
    && (forall i :: 0 <= i < k ==> advice[i] == PostBelowMinImpressions)
    && advice[k..] == BatchTail(totalImpressions, erTotal)
    && PostBelowMinImpressions !in advice[k..]
    && (TotalBelowMinImpressions in advice <==> totalImpressions < MinTotalImpressions)
    && (TotalBelowMinImpressions in advice ==> advice[k] == TotalBelowMinImpressions)
    && (ErHigh in advice <==> 0.08 < erTotal)
    && (ErLow in advice <==> erTotal < 0.03)
  }

  /** The per-post warnings followed by the batch warnings, built step by step. */
  method BatchWarnings(perPost: seq<Message>, totalImpressions: real, erTotal: real) returns (advice: seq<Message>)
    requires forall i :: 0 <= i < |perPost| ==> perPost[i] == PostBelowMinImpressions
    ensures advice == perPost + BatchTail(totalImpressions, erTotal)
    ensures advice[..|perPost|] == perPost
    ensures WarningLayout(advice, |perPost|, totalImpressions, erTotal)
  {
    var batch: seq<Message> := [];
    if totalImpressions < MinTotalImpressions {
      batch := batch + [TotalBelowMinImpressions];
    }
    if erTotal > 0.08 {
      batch := batch + [ErHigh];
    }
    if erTotal < 0.03 {
      batch := batch + [ErLow];
    }
    assert batch == BatchTail(totalImpressions, erTotal);
    advice := perPost + batch;
    assert advice[..|perPost|] == perPost && advice[|perPost|..] == batch;
    assert forall i :: 0 <= i < |perPost| ==> advice[i] == perPost[i];
    WarningsAfterPerPost(perPost, batch);
  }

  method CalculateTotalEr(m: MathLib, a: Audience, posts: seq<Post>) returns (r: CalcResult)
    // one rate per post, in input order
    ensures |r.postErs| == |posts|
    ensures forall i :: 0 <= i < |posts| ==> r.postErs[i] == CalculatorRate(a, posts[i])
    // the pooled counters and rate are over all posts
    ensures r.likes == Totals(posts).likes && r.retweets == Totals(posts).retweets
    ensures r.quotes == Totals(posts).quotes
    ensures r.erTotal == CalculatorRate(a, Totals(posts))
    ensures 0.2 < r.erTotal ==> r.finalScore == Finite(0.0)
    ensures r.erTotal <= 0.2 ==> r.finalScore == PooledFinalScore(m, a, Totals(posts), |posts|, r.erTotal)
    ensures NonNegativeCounts(Totals(posts)) ==>
              (r.finalScore.Finite? <==> 0.0 < Interactions(Totals(posts)))
    ensures Sound(m) && NonNegativeCounts(Totals(posts)) && 0.0 <= a.smartFollowers && r.finalScore.Finite? ==>
              0.0 <= r.finalScore.value
    // advice: one warning per below-minimum post, then the total-impressions
    // warning, then at most one ER message
    ensures WarningLayout(r.advice, CountBelowMin(posts), Totals(posts).impressions, r.erTotal)
  {
    var postErs, totals, perPost := ScanPosts(a, posts);
    var erTotal := CalculatorRate(a, totals);
    var finalScore := PooledScore(m, a, totals, |posts|, erTotal);
    var advice := BatchWarnings(perPost, totals.impressions, erTotal);
    r := CalcResult(erTotal, postErs, finalScore, advice, totals.likes, totals.retweets, totals.quotes);
  }

  /** Non-negative posts give non-negative totals. */
  lemma {:induction false} TotalsNonNegative(posts: seq<Post>)
    requires forall i :: 0 <= i < |posts| ==> NonNegativeCounts(posts[i])
    ensures NonNegativeCounts(Totals(posts))
    decreases |posts|
  {
    if |posts| > 0 {
      var init := posts[..|posts| - 1];
      assert forall i :: 0 <= i < |init| ==> init[i] == posts[i];
      TotalsNonNegative(init);
    }
  }

  /** The same posts as the batch service sees them. */
  function ServicePosts(posts: seq<Post>): (r: seq<MultiPostScore.Post>)
    ensures |r| == |posts|
    ensures forall i :: 0 <= i < |posts| ==>
              r[i] == MultiPostScore.Post(posts[i].likes, posts[i].retweets, posts[i].quotes, posts[i].impressions)
    decreases |posts|
  {
    if |posts| == 0 then []
    else
      var p := posts[|posts| - 1];
      ServicePosts(posts[..|posts| - 1]) + [MultiPostScore.Post(p.likes, p.retweets, p.quotes, p.impressions)]
  }

  /** When no post is below the minimum, the component pools the same counters as
      the batch service; otherwise the component also counts the posts the service
      excludes. */
  lemma {:induction false} TotalsAgreeWithService(posts: seq<Post>)
    requires CountBelowMin(posts) == 0
    ensures var t := MultiPostScore.EligibleTotals(ServicePosts(posts));
            Totals(posts) == Post(t.impressions, t.likes, t.retweets, t.quotes)
    decreases |posts|
  {
    if |posts| > 0 {
      var init := posts[..|posts| - 1];
      TotalsAgreeWithService(init);
      assert ServicePosts(posts)[..|posts| - 1] == ServicePosts(init);
    }
  }
}
