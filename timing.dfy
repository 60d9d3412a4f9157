/** Frame timing shared by the animation clip and the player's own frame cursor. */
module Timing {

  /** A frame step is due once the accumulated time reaches `num / rate` seconds.
      In the source the period is a float division; a rate of zero gives an
      infinite period, which no finite accumulated time reaches. */
  predicate Due(time: real, num: real, rate: real) {
    rate != 0.0 && time >= num / rate
  }

}
