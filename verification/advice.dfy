/** The advice messages the engine produces, as tags. The source's messages are
    Vietnamese text with emoji; only their identity matters to the engine's logic. */
module Advice {

  datatype Message =
    /* single-post scorer, input guard */
    | InvalidImpressions
    /* engagement-rate band, one per scored post (also the UI's two ER messages) */
    | ErHigh
    | ErLow
    | ErSafe
    /* audience quality */
    | LowSmartAudience
    | VerifiedRatioGood
    | VerifiedRatioLow
    /* single-post issues, in the order the guards are evaluated */
    | BelowMinImpressions
    | ReachSpike
    | LikeHeavy
    | LikeRateDisqualified
    | OnlyLikes
    /* batch scorer */
    | PostExcluded
    | TotalErHigh
    | TotalErLow
    | TotalErSafe
    /* multi-post UI calculator */
    | PostBelowMinImpressions
    | TotalBelowMinImpressions

  predicate IsErBand(msg: Message) {
    msg.ErHigh? || msg.ErLow? || msg.ErSafe?
  }
}
