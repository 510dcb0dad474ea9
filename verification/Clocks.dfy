// The injected UTC clock: it never runs backwards.

module Clocks {
  import opened Orders

  class Clock {
    var now: Time

    constructor (start: Time)
      ensures now == start
    {
      now := start;
    }

    method Read() returns (t: Time)
      modifies this
      ensures t == now && old(now) <= t
    {
      var later: int :| 0 <= later;
      now := now + later;
      t := now;
    }
  }
}
