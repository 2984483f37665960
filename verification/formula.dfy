/** The scoring formula shared by every variant of the engine: the two services
    (single post and batch) and the two calculators in the UI compute the same
    chain of signals, differing only in how they obtain the engagement rate, the
    smart engagement, the post multiplier and the verified boost. */
module Formula {
  import opened Numeric

  /** SRM, the reach-maturity factor: grows with impressions and saturates at
      100000 impressions. */
  function ReachMaturity(impressions: real): (srm: real)
    ensures srm <= 1.0
    ensures 0.0 <= impressions ==> 0.0 <= srm
    ensures 0.0 < impressions ==> 0.0 < srm
    ensures srm == 1.0 <==> 100000.0 <= impressions
  {
    Min(1.0, impressions / 100000.0)
  }

  lemma ReachMaturityMonotone(a: real, b: real)
    requires a <= b
    ensures ReachMaturity(a) <= ReachMaturity(b)
  {
  }

  /** qW, the weight of a quote relative to a like. */
  function QuoteWeight(srm: real): (qw: real)
    ensures 0.0 <= srm <= 1.0 ==> 4.0 <= qw <= 6.0
  {
    4.0 + 2.0 * srm
  }

  /** ENG, the weighted engagement: a retweet counts three likes, a quote qW likes. */
  function WeightedEngagement(likes: real, retweets: real, quotes: real, qw: real): (eng: real)
    ensures 0.0 <= likes && 0.0 <= retweets && 0.0 <= quotes && 1.0 <= qw ==>
              likes + retweets + quotes <= eng
  {
    var weightedQuotes := qw * quotes;
    assert 0.0 <= quotes && 1.0 <= qw ==> quotes <= weightedQuotes by {
      if 0.0 <= quotes && 1.0 <= qw {
        assert weightedQuotes - quotes == (qw - 1.0) * quotes;
      }
    }
    likes + 3.0 * retweets + weightedQuotes
  }

  /** ENG with the quote weight every variant derives from the impressions. */
  function Engagement(likes: real, retweets: real, quotes: real, impressions: real): (eng: real)
    ensures 0.0 <= likes && 0.0 <= retweets && 0.0 <= quotes && 0.0 <= impressions ==>
              likes + retweets + quotes <= eng
  {
    WeightedEngagement(likes, retweets, quotes, QuoteWeight(ReachMaturity(impressions)))
  }

  /** ER, the unweighted engagement rate (a fraction, not a percentage). */
  function EngagementRate(likes: real, retweets: real, quotes: real, impressions: real): (er: real)
    requires 0.0 < impressions
    ensures er * impressions == likes + retweets + quotes
    ensures 0.0 <= likes + retweets + quotes ==> 0.0 <= er
  {
    (likes + retweets + quotes) / impressions
  }

  /** Reposts and quotes per impression, counting at least one impression; the
      propagation ratio every variant of the score guards on. */
  function PropagationShare(retweets: real, quotes: real, impressions: real): (share: real)
    ensures share * Max(impressions, 1.0) == retweets + quotes
    ensures 0.0 <= retweets && 0.0 <= quotes ==> 0.0 <= share
  {
    (retweets + quotes) / Max(impressions, 1.0)
  }

  /** ER_cap, the largest engagement per impression that is credited in full. */
  function EngagementCap(srm: real): (cap: real)
    ensures 0.0 <= srm <= 1.0 ==> 0.01 <= cap <= 0.05
    ensures 0.0 <= srm ==> 0.01 <= cap
  {
    0.01 + 0.04 * srm
  }

  /** EngObs, the observed engagement: the larger of the weighted engagement and
      the interactions implied by the engagement rate. */
  function ObservedEngagement(eng: real, er: real, impressions: real): (engObs: real)
    ensures eng <= engObs && er * impressions <= engObs
    ensures engObs == eng || engObs == er * impressions
  {
    Max(eng, er * impressions)
  }

  /** EffEng, the observed engagement capped at impressions · ER_cap. */
  function EffectiveEngagement(engObs: real, impressions: real, srm: real): (effEng: real)
    ensures effEng <= engObs && effEng <= impressions * EngagementCap(srm)
    ensures effEng == engObs || effEng == impressions * EngagementCap(srm)
    ensures 0.0 <= engObs && 0.0 <= impressions && 0.0 <= srm ==> 0.0 <= effEng
    ensures 0.0 < engObs && 0.0 < impressions && 0.0 <= srm ==> 0.0 < effEng
  {
    var cap := EngagementCap(srm);
    assert 0.0 <= impressions && 0.0 <= srm ==> 0.0 <= impressions * cap by {
      if 0.0 <= impressions && 0.0 <= srm { ProductNonNegative(impressions, cap); }
    }
    assert 0.0 < impressions && 0.0 <= srm ==> 0.0 < impressions * cap by {
      if 0.0 < impressions && 0.0 <= srm { ProductMonotone(0.01, cap, impressions); }
    }
    Min(engObs, impressions * cap)
  }

  /** Clamp = EffEng / EngObs: 1 when nothing was capped, below 1 when the cap
      applied, and not a finite number when EngObs is 0 (0 / 0 in the source). */
  function ClampRatio(effEng: real, engObs: real): (clamp: Num)
    ensures clamp.Finite? <==> engObs != 0.0
    ensures engObs != 0.0 && effEng == engObs ==> clamp == Finite(1.0)
    ensures 0.0 <= effEng <= engObs && 0.0 < engObs ==> clamp.Finite? && 0.0 <= clamp.value <= 1.0
    ensures 0.0 < effEng <= engObs ==> clamp.Finite? && 0.0 < clamp.value
  {
    if engObs == 0.0 then NonFinite
    else
      assert 0.0 <= effEng <= engObs && 0.0 < engObs ==> 0.0 <= effEng / engObs <= 1.0 by {
        if 0.0 <= effEng <= engObs && 0.0 < engObs { RatioAtMostOne(effEng, engObs); }
      }
      assert 0.0 < effEng <= engObs ==> 0.0 < effEng / engObs;
      assert effEng == engObs ==> effEng / engObs == 1.0;
      Finite(effEng / engObs)
  }

  /** The observed engagement, its capped value and the clamp ratio together:
      the three steps that keep an implausibly high engagement from counting. */
  datatype Capped = Capped(engObs: real, effEng: real, clamp: Num)

  function CapEngagement(eng: real, er: real, impressions: real, srm: real): (c: Capped)
    ensures c.engObs == ObservedEngagement(eng, er, impressions)
    ensures c.effEng == EffectiveEngagement(c.engObs, impressions, srm)
    ensures c.clamp == ClampRatio(c.effEng, c.engObs)
    // the cap never raises the engagement, and the clamp is a proper fraction
    ensures 0.0 < c.engObs && 0.0 < impressions && 0.0 <= srm ==>
              && c.effEng <= c.engObs
              && c.effEng <= impressions * EngagementCap(srm)
              && c.clamp.Finite? && 0.0 < c.clamp.value <= 1.0
  {
    var engObs := ObservedEngagement(eng, er, impressions);
    var effEng := EffectiveEngagement(engObs, impressions, srm);
    Capped(engObs, effEng, ClampRatio(effEng, engObs))
  }

  /** SF, the smart-follower signal: log10(smartFollowers + 1), capped at 3. */
  function SmartSignal(m: MathLib, smartFollowers: real): (sf: real)
    ensures sf <= 3.0
    ensures Sound(m) && 0.0 <= smartFollowers ==> 0.0 <= sf
  {
    Min(m.log10(smartFollowers + 1.0), 3.0)
  }

  /** VF, the share of verified followers, capped at 1. */
  function VerifiedRatio(verifiedFollowers: real, followers: real): (vf: real)
    ensures vf <= 1.0
    ensures 0.0 <= verifiedFollowers ==> 0.0 <= vf
    ensures followers <= 1.0 ==> vf == Min(verifiedFollowers, 1.0)
  {
    Min(verifiedFollowers / Max(followers, 1.0), 1.0)
  }

  /** QE, the reach efficiency: ln(1 + impressions / followers), capped at 2,
      scaled by SRM. */
  function ReachEfficiency(m: MathLib, impressions: real, followers: real, srm: real): (qe: real)
    ensures Sound(m) && 0.0 <= impressions && 0.0 <= srm ==> 0.0 <= qe <= 2.0 * srm
  {
    var perFollower := impressions / Max(followers, 1.0);
    assert 0.0 <= impressions ==> 0.0 <= perFollower;
    var logReach := Min(m.ln(1.0 + perFollower), 2.0);
    assert 0.0 <= srm ==> logReach * srm <= 2.0 * srm by {
      if 0.0 <= srm { ProductMonotone(logReach, 2.0, srm); }
    }
    logReach * srm
  }

  /** erMult: rewards the engagement rate up to 5%, flat above. */
  function ErMultiplier(er: real): (mult: real)
    ensures mult <= 1.0
    ensures 0.0 <= er ==> 0.9 <= mult
    ensures 0.05 <= er ==> mult == 1.0
  {
    0.9 + 2.0 * Min(er, 0.05)
  }

  /** verifiedBoost: up to 25% extra for a fully verified audience. */
  function VerifiedBoost(vf: real): (boost: real)
    ensures 0.0 <= vf <= 1.0 ==> 1.0 <= boost <= 1.25
  {
    1.0 + 0.25 * vf
  }

  /** The signals the score is assembled from. */
  datatype Signals = Signals(
    srm: real,       // reach maturity
    sf: real,        // smart-follower signal
    imp: real,       // square root of the impressions
    eng: real,       // weighted engagement
    clamp: Num,      // EffEng / EngObs
    seng: real,      // capped smart engagement
    qe: real,        // reach efficiency
    erMult: real,
    postMult: real,
    boost: real)     // verified boost (1 where a variant has none)
  {
    predicate NonNegative() {
      && 0.0 <= srm <= 1.0 && 0.0 <= sf && 0.0 <= imp && 0.0 <= eng
      && (clamp.Finite? ==> 0.0 <= clamp.value)
      && 0.0 <= seng && 0.0 <= qe && 0.0 <= erMult && 0.0 <= postMult && 0.0 <= boost
    }
  }

  /** The score before the guards:
      (500·SF + 10·IMP + (0.7·ENG·Clamp + 150·SENG)·SRM^1.5 + 120·QE) · erMult · postMult · boost. */
  function RawScore(m: MathLib, s: Signals): (score: Num)
    ensures score.Finite? <==> s.clamp.Finite?
  {
    match s.clamp
    case NonFinite => NonFinite
    case Finite(clamp) =>
      var engageBlock := (s.eng * 0.7 * clamp + s.seng * 150.0) * m.pow(s.srm, 1.5);
      var baseScore := s.sf * 500.0 + s.imp * 10.0 + engageBlock + s.qe * 120.0;
      Finite(baseScore * s.erMult * s.postMult * s.boost)
  }

  lemma ProductNonNegative(a: real, b: real)
    requires 0.0 <= a && 0.0 <= b
    ensures 0.0 <= a * b
  {
  }

  lemma ProductPositive(a: real, b: real)
    requires 0.0 < a && 0.0 < b
    ensures 0.0 < a * b
  {
  }

  lemma ProductMonotone(a: real, b: real, c: real)
    requires a <= b && 0.0 <= c
    ensures a * c <= b * c
  {
    ProductNonNegative(b - a, c);
  }

  lemma RatioAtMostOne(a: real, b: real)
    requires 0.0 <= a <= b && 0.0 < b
    ensures 0.0 <= a / b <= 1.0
  {
  }

  /** With sound library functions, non-negative signals give a non-negative score. */
  lemma RawScoreNonNegative(m: MathLib, s: Signals)
    requires Sound(m) && s.NonNegative() && s.clamp.Finite?
    ensures RawScore(m, s).Finite? && 0.0 <= RawScore(m, s).value
  {
    var clamp := s.clamp.value;
    var pow := m.pow(s.srm, 1.5);
    assert 0.0 <= pow;
    ProductNonNegative(s.eng * 0.7, clamp);
    var inner := s.eng * 0.7 * clamp + s.seng * 150.0;
    ProductNonNegative(inner, pow);
    var baseScore := s.sf * 500.0 + s.imp * 10.0 + inner * pow + s.qe * 120.0;
    ProductNonNegative(baseScore, s.erMult);
    ProductNonNegative(baseScore * s.erMult, s.postMult);
    ProductNonNegative(baseScore * s.erMult * s.postMult, s.boost);
  }

  /** The factor the second rate guard applies: 0.3 for an engagement rate above
      10% on fewer than 50000 impressions, 1 otherwise. */
  function RateGuardFactor(er: real, impressions: real): (f: real)
    ensures f == 0.3 || f == 1.0
    ensures f == 0.3 <==> 0.1 < er && impressions < 50000.0
  {
    if er > 0.1 && impressions < 50000.0 then 0.3 else 1.0
  }

  /** The factor of the services' low-ER penalty: 0.5 below 0.1%, 1 otherwise. */
  function LowErFactor(er: real): (f: real)
    ensures f == 0.5 || f == 1.0
    ensures f == 0.5 <==> er < 0.001
  {
    if er < 0.001 then 0.5 else 1.0
  }

  /** Scaling by 1 changes nothing. */
  lemma TimesOne(n: Num)
    ensures n.Times(1.0) == n
  {
  }

  /** The two guards every variant applies first: an engagement rate above 20%
      disqualifies (the score becomes 0), and one above 10% on fewer than 50000
      impressions keeps 30% of the score. */
  function RateGuards(score: Num, er: real, impressions: real): (guarded: Num)
    ensures 0.2 < er ==> guarded == Finite(0.0)
    ensures er <= 0.2 ==> guarded == score.Times(RateGuardFactor(er, impressions))
    ensures er <= 0.2 ==> (guarded.Finite? <==> score.Finite?)
    ensures er <= 0.1 || 50000.0 <= impressions ==> guarded == (if 0.2 < er then Finite(0.0) else score)
    ensures score.Finite? && 0.0 <= score.value ==> guarded.Finite? && 0.0 <= guarded.value <= score.value
  {
    var disqualified := if er > 0.2 then Finite(0.0) else score;
    if er > 0.1 && impressions < 50000.0 then disqualified.Times(0.3) else disqualified
  }

  /** The signals of the two services: ER is the plain engagement rate, the smart
      engagement is supplied, a single post counts 1.02 and verified followers
      boost the score. */
  function ServiceSignals(m: MathLib, likes: real, retweets: real, quotes: real, impressions: real,
                          followers: real, smartFollowers: real, verifiedFollowers: real,
                          smartEngagement: real): (s: Signals)
    requires 0.0 < impressions
    ensures 0.0 <= likes && 0.0 <= retweets && 0.0 <= quotes ==>
              (s.clamp.Finite? <==> 0.0 < likes + retweets + quotes)
    ensures (&& Sound(m) && 0.0 <= likes && 0.0 <= retweets && 0.0 <= quotes
             && 0.0 <= smartFollowers && 0.0 <= verifiedFollowers && 0.0 <= smartEngagement)
            ==> s.NonNegative()
    ensures s.postMult == 1.02
    // SENG is the supplied smart engagement, capped at half the effective engagement
    ensures var er := EngagementRate(likes, retweets, quotes, impressions);
            var effEng := CapEngagement(Engagement(likes, retweets, quotes, impressions), er, impressions,
                                        ReachMaturity(impressions)).effEng;
            s.seng <= smartEngagement && s.seng <= 0.5 * effEng
  {
    var er := EngagementRate(likes, retweets, quotes, impressions);
    var srm := ReachMaturity(impressions);
    var eng := Engagement(likes, retweets, quotes, impressions);
    var capped := CapEngagement(eng, er, impressions, srm);
    Signals(srm, SmartSignal(m, smartFollowers), m.sqrt(impressions), eng, capped.clamp,
            Min(smartEngagement, 0.5 * capped.effEng), ReachEfficiency(m, impressions, followers, srm),
            ErMultiplier(er), 1.02, VerifiedBoost(VerifiedRatio(verifiedFollowers, followers)))
  }
}
