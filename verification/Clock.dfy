/** Millisecond clocks of the firmware: unsigned 32-bit counters that wrap. */
module Clock {

  const WRAP := 0x1_0000_0000
  const HALF := 0x8000_0000

  type U32 = x: int | 0 <= x < 0x1_0000_0000

  /** The counter reading at an absolute, never wrapping time. */
  function At(time: nat): U32 {
    time % WRAP
  }

  /** Unsigned difference of two counter readings. */
  function Elapsed(now: U32, since: U32): (ms: nat)
    ensures ms < WRAP
  {
    (now - since) % WRAP
  }

  function Later(now: U32, ms: nat): U32 {
    (now + ms) % WRAP
  }

  /** The signed comparison used for deadlines: at most half a wrap behind. */
  predicate Reached(now: U32, deadline: U32) {
    (now - deadline) % WRAP < HALF
  }
}
