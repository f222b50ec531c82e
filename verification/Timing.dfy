/** The machine's cycle counter. */
module Timing {

  /** Readings never go back, and at most `idle` more readings in a row may show no progress; how
      far time moves between readings is up to the machine. */
  class Clock {
    var now: nat   // the last reading
    var idle: nat
    ghost var readings: seq<nat>

    constructor (now: nat, idle: nat)
      ensures this.now == now && this.idle == idle && readings == []
    {
      this.now, this.idle, readings := now, idle, [];
    }

    /** `get_cycles` */
    method GetCycles() returns (t: nat)
      modifies this
      ensures t == now >= old(now) && readings == old(readings) + [t]
      ensures now == old(now) ==> idle < old(idle)
    {
      var passed: int, stall: int := *, *;
      if passed > 0 || idle == 0 {
        now := now + if passed > 0 then passed else 1;
        idle := if stall > 0 then stall else 0;
      } else {
        idle := idle - 1;
      }
      t := now;
      readings := readings + [t];
    }
  }
}
