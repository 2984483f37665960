/** The formula the two calculator components run in the browser. It differs
    from the services: the engagement rate is taken over "effective impressions"
    (impressions discounted by audience trust and by how much the post spreads),
    the smart engagement is estimated from the smart-follower share, the post
    multiplier is chosen by the caller and there is no verified boost. */
module UiFormula {
  import opened Numeric
  import opened Formula

  /** smartFollowers / max(followers, 1), falling back to 0.7 when that is 0. */
  function SmartShare(smartFollowers: real, followers: real): (share: real)
    ensures share != 0.0
    ensures smartFollowers == 0.0 ==> share == 0.7
    ensures smartFollowers != 0.0 ==> share * Max(followers, 1.0) == smartFollowers
    ensures 0.0 <= smartFollowers ==> 0.0 < share
  {
    var ratio := smartFollowers / Max(followers, 1.0);
    if ratio == 0.0 then 0.7 else ratio
  }

  /** verified / max(followers, 1). */
  function VerifiedShare(verified: real, followers: real): (share: real)
    ensures share * Max(followers, 1.0) == verified
    ensures 0.0 <= verified ==> 0.0 <= share
  {
    verified / Max(followers, 1.0)
  }

  /** Trust in the audience: 70% smart share and 30% verified share, floored at
      0.05 and capped at 1. */
  function TrustFactor(smartShare: real, verifiedShare: real): (trust: real)
    ensures 0.05 <= trust <= 1.0
    ensures 0.05 <= 0.7 * smartShare + 0.3 * verifiedShare <= 1.0 ==>
              trust == 0.7 * smartShare + 0.3 * verifiedShare
  {
    Min(1.0, Max(0.05, 0.7 * smartShare + 0.3 * verifiedShare))
  }

  /** The propagation factor: posts that are hardly reposted or quoted count
      fewer effective impressions. */
  function PropFactor(propRatio: real): (pf: real)
    ensures pf == 0.6 || pf == 0.8 || pf == 1.0
    ensures pf == 0.6 <==> propRatio < 0.05
    ensures pf == 1.0 <==> 0.2 <= propRatio
  {
    if propRatio < 0.05 then 0.6 else if propRatio < 0.2 then 0.8 else 1.0
  }

  lemma PropFactorMonotone(a: real, b: real)
    requires a <= b
    ensures PropFactor(a) <= PropFactor(b)
  {
  }

  /** The engagement rate over effective impressions (impressions · trust ·
      propagation); 0 when there are none. */
  function AdjustedRate(interactions: real, impressions: real, trust: real, propFactor: real): (er: real)
    requires 0.0 < trust && 0.0 < propFactor
    ensures impressions <= 0.0 ==> er == 0.0
    ensures 0.0 < impressions ==> er * (impressions * trust * propFactor) == interactions
    ensures 0.0 <= interactions ==> 0.0 <= er
    ensures 0.0 <= interactions ==> (er == 0.0 <==> impressions <= 0.0 || interactions == 0.0)
  {
    var effectiveImpressions := impressions * trust * propFactor;
    assert 0.0 < impressions <==> 0.0 < effectiveImpressions by {
      if 0.0 < impressions {
        ProductNonNegative(impressions, trust);
        assert 0.0 < impressions * trust;
        assert 0.0 < impressions * trust * propFactor;
      } else {
        ProductMonotone(impressions, 0.0, trust);
        ProductMonotone(impressions * trust, 0.0, propFactor);
      }
    }
    if effectiveImpressions > 0.0 then interactions / effectiveImpressions else 0.0
  }

  /** Discounting impressions never lowers the rate: with trust and propagation at
      most 1, the adjusted rate is at least the plain rate. */
  lemma AdjustedRateAtLeastPlain(interactions: real, impressions: real, trust: real, propFactor: real)
    requires 0.0 <= interactions && 0.0 < impressions
    requires 0.0 < trust <= 1.0 && 0.0 < propFactor <= 1.0
    ensures interactions / impressions <= AdjustedRate(interactions, impressions, trust, propFactor)
  {
    var er := AdjustedRate(interactions, impressions, trust, propFactor);
    var discount := trust * propFactor;
    DiscountInUnit(trust, propFactor);
    assert impressions * trust * propFactor == impressions * discount;
    assert discount * (er * impressions) == interactions;
    ProductNonNegative(er, impressions);
    ProductMonotone(discount, 1.0, er * impressions);
    QuotientAtMost(interactions, impressions, er);
  }

  /** Two factors in (0, 1] multiply to a factor in (0, 1]. */
  lemma DiscountInUnit(trust: real, propFactor: real)
    requires 0.0 < trust <= 1.0 && 0.0 < propFactor <= 1.0
    ensures 0.0 < trust * propFactor <= 1.0
  {
    ProductPositive(trust, propFactor);
    ProductMonotone(trust, 1.0, propFactor);
  }

  /** x ≤ q · y over a positive y bounds the quotient x / y by q. */
  lemma QuotientAtMost(x: real, y: real, q: real)
    requires 0.0 < y && x <= q * y
    ensures x / y <= q
  {
  }

  /** The factor of the calculators' last guard: a post whose likes exceed half of
      its impressions while its reposts and quotes stay under 5% keeps half of its
      score. */
  function LikeHeavyFactor(likes: real, retweets: real, quotes: real, impressions: real): (f: real)
    ensures f == 0.5 || f == 1.0
    ensures f == 0.5 <==> likes / Max(impressions, 1.0) > 0.5 && (retweets + quotes) / Max(impressions, 1.0) < 0.05
  {
    if likes / Max(impressions, 1.0) > 0.5 && (retweets + quotes) / Max(impressions, 1.0) < 0.05 then 0.5 else 1.0
  }

  /** The signals of a calculator component, with an adjusted rate `er` and a
      caller-chosen post multiplier. */
  function UiSignals(m: MathLib, likes: real, retweets: real, quotes: real, impressions: real,
                     followers: real, smartFollowers: real, er: real, smartShare: real,
                     postMult: real): (s: Signals)
    ensures s.postMult == postMult && s.boost == 1.0
    ensures s.erMult == ErMultiplier(er)
    ensures (&& 0.0 <= likes && 0.0 <= retweets && 0.0 <= quotes && 0.0 <= impressions && 0.0 <= er)
            ==> (s.clamp.Finite? <==> 0.0 < likes + retweets + quotes || 0.0 < er * impressions)
    ensures (&& Sound(m) && 0.0 <= likes && 0.0 <= retweets && 0.0 <= quotes && 0.0 <= impressions
             && 0.0 <= smartFollowers && 0.0 <= er && 0.0 < smartShare && 0.0 <= postMult)
            ==> s.NonNegative()
  {
    var srm := ReachMaturity(impressions);
    var eng := Engagement(likes, retweets, quotes, impressions);
    var capped := CapEngagement(eng, er, impressions, srm);
    var seng := Min(eng * smartShare, 0.5 * capped.effEng);
    assert (&& 0.0 <= likes && 0.0 <= retweets && 0.0 <= quotes && 0.0 <= impressions && 0.0 <= er)
           ==> (capped.engObs == 0.0 <==> !(0.0 < likes + retweets + quotes || 0.0 < er * impressions)) by {
      if 0.0 <= likes && 0.0 <= retweets && 0.0 <= quotes && 0.0 <= impressions && 0.0 <= er {
        ProductNonNegative(er, impressions);
        if likes + retweets + quotes == 0.0 {
          assert likes == 0.0 && retweets == 0.0 && quotes == 0.0;
          assert eng == 0.0;
        }
      }
    }
    assert (&& Sound(m) && 0.0 <= likes && 0.0 <= retweets && 0.0 <= quotes && 0.0 <= impressions
            && 0.0 <= smartFollowers && 0.0 <= er && 0.0 < smartShare && 0.0 <= postMult)
           ==> 0.0 <= seng by {
      if 0.0 <= likes && 0.0 <= retweets && 0.0 <= quotes && 0.0 <= impressions && 0.0 <= er
         && 0.0 < smartShare {
        ProductNonNegative(er, impressions);
        ProductNonNegative(eng, smartShare);
      }
    }
    Signals(srm, SmartSignal(m, smartFollowers), m.sqrt(impressions), eng, capped.clamp, seng,
            ReachEfficiency(m, impressions, followers, srm), ErMultiplier(er), postMult, 1.0)
  }
}
