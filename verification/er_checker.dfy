/** The single-post calculator component (`calculateTotalER` of the ER checker):
    one post's counters and its account's audience in, the adjusted engagement
    rate, the score and at most one ER message out. */
module ErChecker {
  import opened Numeric
  import opened Advice
  import opened Formula
  import opened UiFormula

  /** The seven numeric inputs of the form. */
  datatype CheckInput = CheckInput(
    followers: real,
    verified: real,
    smartFollowers: real,
    impressions: real,
    likes: real,
    retweets: real,
    quotes: real)

  datatype CheckResult = CheckResult(
    er: real,
    finalScore: Num,
    advice: seq<Message>,
    eng: real,
    likes: real,
    retweets: real,
    quotes: real)

  predicate NonNegativeInput(x: CheckInput) {
    && 0.0 <= x.verified && 0.0 <= x.smartFollowers && 0.0 <= x.impressions
    && 0.0 <= x.likes && 0.0 <= x.retweets && 0.0 <= x.quotes
  }

  function Interactions(x: CheckInput): real {
    x.likes + x.retweets + x.quotes
  }

  /** The propagation share of this record's counters. */
  function PropRatio(x: CheckInput): (pr: real)
    ensures pr * Max(x.impressions, 1.0) == x.retweets + x.quotes
    ensures 0.0 <= x.retweets && 0.0 <= x.quotes ==> 0.0 <= pr
  {
    PropagationShare(x.retweets, x.quotes, x.impressions)
  }

  /** The propagation factor of the checker: the band factor, cut to 60% again
      when the post reached more than 50 times the account's followers. */
  function CheckerPropFactor(propRatio: real, impressions: real, followers: real): (pf: real)
    ensures pf in {0.36, 0.48, 0.6, 0.8, 1.0}
    ensures pf <= PropFactor(propRatio)
    ensures pf == 1.0 <==> 0.2 <= propRatio && impressions / Max(followers, 1.0) <= 50.0
  {
    if impressions / Max(followers, 1.0) > 50.0 then 0.6 * PropFactor(propRatio) else PropFactor(propRatio)
  }

  /** The audience trust of the form's counters. */
  function CheckerTrust(x: CheckInput): real {
    TrustFactor(SmartShare(x.smartFollowers, x.followers), VerifiedShare(x.verified, x.followers))
  }

  /** The checker's engagement rate: interactions over impressions discounted by
      trust and by the checker's propagation factor; 0 without impressions. */
  function CheckerRate(x: CheckInput): (er: real)
    ensures x.impressions <= 0.0 ==> er == 0.0
    ensures NonNegativeInput(x) ==> 0.0 <= er
    ensures NonNegativeInput(x) ==> (er == 0.0 <==> x.impressions == 0.0 || Interactions(x) == 0.0)
  {
    AdjustedRate(Interactions(x), x.impressions, CheckerTrust(x),
                 CheckerPropFactor(PropRatio(x), x.impressions, x.followers))
  }

  /** The checker's rate is never below the plain rate, and at most 1/0.018 times
      it (trust is at least 0.05 and propagation at least 0.36). */
  lemma CheckerRateBounds(x: CheckInput)
    requires NonNegativeInput(x) && 0.0 < x.impressions
    ensures Interactions(x) / x.impressions <= CheckerRate(x)
    ensures CheckerRate(x) * (x.impressions * 0.018) <= Interactions(x)
  {
    var trust := CheckerTrust(x);
    var propFactor := CheckerPropFactor(PropRatio(x), x.impressions, x.followers);
    AdjustedRateAtLeastPlain(Interactions(x), x.impressions, trust, propFactor);
    AdjustedRateAtMost(Interactions(x), x.impressions, trust, propFactor);
  }

  /** A rate of non-negative counters over positive impressions is never below the
      plain rate and at most 1/0.018 times it. */
  predicate WithinPlainBounds(x: CheckInput, er: real) {
    NonNegativeInput(x) && 0.0 < x.impressions ==>
      Interactions(x) / x.impressions <= er && er * (x.impressions * 0.018) <= Interactions(x)
  }

  /** The signals of the checker for an adjusted rate `er`: post multiplier 1.02. */
  function CheckerSignals(m: MathLib, x: CheckInput, er: real): Signals {
    UiSignals(m, x.likes, x.retweets, x.quotes, x.impressions, x.followers,
              x.smartFollowers, er, SmartShare(x.smartFollowers, x.followers), 1.02)
  }

  method PropagationFactor(propRatio: real, impressions: real, followers: real) returns (propFactor: real)
    ensures propFactor == CheckerPropFactor(propRatio, impressions, followers)
    ensures impressions / Max(followers, 1.0) > 50.0 ==> propFactor == 0.6 * PropFactor(propRatio)
    ensures impressions / Max(followers, 1.0) <= 50.0 ==> propFactor == PropFactor(propRatio)
  {
    propFactor := 1.0;
    if propRatio < 0.05 {
      propFactor := 0.6;
    } else if propRatio < 0.2 {
      propFactor := 0.8;
    }
    if impressions / Max(followers, 1.0) > 50.0 {
      propFactor := propFactor * 0.6;
    }
  }

  /** The engagement rate over effective impressions, step by step. */
  method EffectiveRate(x: CheckInput) returns (er: real)
    ensures er == CheckerRate(x)
    ensures x.impressions <= 0.0 ==> er == 0.0
    ensures NonNegativeInput(x) ==> 0.0 <= er
    ensures NonNegativeInput(x) ==> (er == 0.0 <==> x.impressions == 0.0 || Interactions(x) == 0.0)
    ensures WithinPlainBounds(x, er)
  {
    var smartShare := SmartShare(x.smartFollowers, x.followers);
    var verifiedShare := VerifiedShare(x.verified, x.followers);
    var trustFactor := TrustFactor(smartShare, verifiedShare);

    var propRatio := (x.retweets + x.quotes) / Max(x.impressions, 1.0);
    var propFactor := PropagationFactor(propRatio, x.impressions, x.followers);

    er := AdjustedRate(Interactions(x), x.impressions, trustFactor, propFactor);
    if NonNegativeInput(x) && 0.0 < x.impressions {
      CheckerRateBounds(x);
    }
  }

  /** The score for an adjusted rate `er`: the metric chain with a post multiplier
      of 1.02 and no verified boost, the two rate guards, and the halving of a
      like-heavy post that hardly spreads. */
  method CheckerScore(m: MathLib, x: CheckInput, er: real) returns (finalScore: Num, eng: real)
    requires NonNegativeInput(x) ==> 0.0 <= er
    requires NonNegativeInput(x) ==> (er == 0.0 <==> x.impressions == 0.0 || Interactions(x) == 0.0)
    ensures eng == Engagement(x.likes, x.retweets, x.quotes, x.impressions)
    ensures 0.2 < er ==> finalScore == Finite(0.0)
    ensures er <= 0.2 ==>
              finalScore == RawScore(m, CheckerSignals(m, x, er))
                              .Times(RateGuardFactor(er, x.impressions))
                              .Times(LikeHeavyFactor(x.likes, x.retweets, x.quotes, x.impressions))
    ensures er <= 0.1 && LikeHeavyFactor(x.likes, x.retweets, x.quotes, x.impressions) == 1.0 ==>
              finalScore == RawScore(m, CheckerSignals(m, x, er))
    ensures NonNegativeInput(x) ==> (finalScore.Finite? <==> 0.0 < Interactions(x))
    ensures Sound(m) && NonNegativeInput(x) && finalScore.Finite? ==> 0.0 <= finalScore.value
  {
    var smartShare := SmartShare(x.smartFollowers, x.followers);
    var propRatio := (x.retweets + x.quotes) / Max(x.impressions, 1.0);
    var likeRate := x.likes / Max(x.impressions, 1.0);

    var s := UiSignals(m, x.likes, x.retweets, x.quotes, x.impressions, x.followers,
                       x.smartFollowers, er, smartShare, 1.02);
    if NonNegativeInput(x) {
      ProductNonNegative(er, x.impressions);
      if 0.0 < Interactions(x) && 0.0 < x.impressions {
        ProductPositive(er, x.impressions);
      }
    }
    var raw := RawScore(m, s);
    if Sound(m) && NonNegativeInput(x) && s.clamp.Finite? {
      RawScoreNonNegative(m, s);
    }
    TimesOne(raw);

    var guarded := RateGuards(raw, er, x.impressions);
    finalScore := guarded;
    if likeRate > 0.5 && propRatio < 0.05 {
      finalScore := finalScore.Times(0.5);
    } else {
      TimesOne(guarded);
    }
    eng := s.eng;
  }

  /** The checker's advice: at most one ER message, none inside the safe band. */
  method RateAdvice(er: real) returns (advice: seq<Message>)
    ensures |advice| <= 1
    ensures ErHigh in advice <==> 0.08 < er
    ensures ErLow in advice <==> er < 0.03
    ensures advice == [] <==> 0.03 <= er <= 0.08
  {
    advice := [];
    if er > 0.08 {
      advice := advice + [ErHigh];
    }
    if er < 0.03 {
      advice := advice + [ErLow];
    }
  }

  method CalculateTotalEr(m: MathLib, x: CheckInput) returns (r: CheckResult)
    // the counters are echoed, together with the weighted engagement
    ensures r.likes == x.likes && r.retweets == x.retweets && r.quotes == x.quotes
    ensures r.eng == Engagement(x.likes, x.retweets, x.quotes, x.impressions)
    // the rate
    ensures r.er == CheckerRate(x)
    ensures x.impressions <= 0.0 ==> r.er == 0.0
    ensures NonNegativeInput(x) ==> (r.er == 0.0 <==> x.impressions == 0.0 || Interactions(x) == 0.0)
    ensures WithinPlainBounds(x, r.er)
    // disqualification, the guard factors, and the score's finiteness and sign
    ensures 0.2 < r.er ==> r.finalScore == Finite(0.0)
    ensures r.er <= 0.2 ==>
              r.finalScore == RawScore(m, CheckerSignals(m, x, r.er))
                                .Times(RateGuardFactor(r.er, x.impressions))
                                .Times(LikeHeavyFactor(x.likes, x.retweets, x.quotes, x.impressions))
    ensures NonNegativeInput(x) ==> (r.finalScore.Finite? <==> 0.0 < Interactions(x))
    ensures Sound(m) && NonNegativeInput(x) && r.finalScore.Finite? ==> 0.0 <= r.finalScore.value
    // at most one ER message, none inside the safe band
    ensures |r.advice| <= 1
    ensures ErHigh in r.advice <==> 0.08 < r.er
    ensures ErLow in r.advice <==> r.er < 0.03
    ensures r.advice == [] <==> 0.03 <= r.er <= 0.08
  {
    var er := EffectiveRate(x);
    var finalScore, eng := CheckerScore(m, x, er);

    var advice := RateAdvice(er);
    r := CheckResult(er, finalScore, advice, eng, x.likes, x.retweets, x.quotes);
  }

  /** With trust ≥ 0.05 and propagation ≥ 0.36, effective impressions are at least
      1.8% of the impressions, which bounds the adjusted rate from above. */
  lemma AdjustedRateAtMost(interactions: real, impressions: real, trust: real, propFactor: real)
    requires 0.0 <= interactions && 0.0 < impressions
    requires 0.05 <= trust && 0.36 <= propFactor
    ensures AdjustedRate(interactions, impressions, trust, propFactor) * (impressions * 0.018) <= interactions
  {
    var er := AdjustedRate(interactions, impressions, trust, propFactor);
    ProductMonotone(0.05, trust, propFactor);
    ProductMonotone(0.36, propFactor, 0.05);
    assert 0.018 <= trust * propFactor;
    assert er * (impressions * (trust * propFactor)) == interactions;
    ProductNonNegative(er, impressions);
    ProductMonotone(0.018, trust * propFactor, er * impressions);
  }
}
