/** RyanMqttTimer_t: millisecond timers on a 32-bit clock that wraps around. */
module Timers {
  import opened Bytes

  datatype Timer = Timer(start: u32, timeout: u32)

  /** RyanMqttTimerRemain at clock reading `now`. */
  function Remain(t: Timer, now: u32): (r: u32) {
    var elapsed := (now - t.start) % 0x1_0000_0000;
    if elapsed >= t.timeout then 0 else t.timeout - elapsed
  }

  /** The clock reading at `time` milliseconds since power-on. */
  function Clock(time: nat): u32 {
    time % 0x1_0000_0000
  }

  /** RyanMqttTimerCutdown at `time`. */
  function Started(time: nat, timeout: u32): Timer {
    Timer(Clock(time), timeout)
  }

  /** The wrap of the clock is invisible as long as less than a full turn has passed. */
  lemma {:induction false} RemainAcrossWrap(time: nat, timeout: u32, later: nat)
    requires time <= later < time + 0x1_0000_0000
    ensures Remain(Started(time, timeout), Clock(later)) ==
            if later - time >= timeout then 0 else timeout - (later - time)
  {
  }

}
