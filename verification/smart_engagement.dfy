/** The smart-engagement estimate: the part of the weighted engagement ENG
    attributed to smart followers, in proportion to their share of the audience. */
module SmartEngagement {

  function Estimate(eng: real, smartFollowers: real, followers: real): (se: real)
    ensures followers <= 0.0 ==> se == 0.0
    ensures 0.0 < followers ==> se * followers == eng * smartFollowers
    ensures 0.0 <= eng && 0.0 <= smartFollowers ==> 0.0 <= se
    ensures 0.0 <= eng && 0.0 <= smartFollowers <= followers ==> se <= eng
  {
    if followers <= 0.0 then 0.0
    else
      var share := smartFollowers / followers;
      assert 0.0 <= smartFollowers <= followers ==> share <= 1.0;
      assert 0.0 <= eng && share <= 1.0 ==> eng * share <= eng by {
        if 0.0 <= eng && share <= 1.0 { assert eng - eng * share == eng * (1.0 - share); }
      }
      assert 0.0 <= eng && 0.0 <= share ==> 0.0 <= eng * share;
      eng * share
  }
}
