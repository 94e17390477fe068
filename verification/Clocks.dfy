/** The clock the stores read. */
module Clocks {

  /** Each read returns the present instant; any amount of time may have passed since the last. */
  class Clock {
    var now: int

    constructor ()
    {
    }

    method Now() returns (t: int)
      modifies this
      ensures t == now && old(now) <= now
    {
      var passed: int := *;
      if passed > 0 {
        now := now + passed;
      }
      t := now;
    }
  }
}
