/**
 * Millisecond ticks as the game reads them from SDL_GetTicks: an unsigned
 * 32-bit counter, so that subtracting an earlier reading from a later one
 * is done modulo 2^32.
 */
module Ticks {
  const TicksModulus: int := 0x1_0000_0000

  newtype u32 = x: int | 0 <= x < 0x1_0000_0000

  /** The tick `dt` milliseconds after `t`, wrapping around as the counter does. */
  function Advance(t: u32, dt: nat): u32 {
    ((t as int + dt) % TicksModulus) as u32
  }

  /**
   * `now - since` computed on two unsigned 32-bit operands: the true
   * difference when the counter has not wrapped in between, and the
   * difference plus 2^32 when it has.
   */
  function Elapsed(since: u32, now: u32): (r: u32)
    ensures since <= now ==> r as int == now as int - since as int
    ensures now < since ==> r as int == now as int - since as int + TicksModulus
  {
    ((now as int - since as int) % TicksModulus) as u32
  }

  /** Whatever the starting tick, `dt` ticks later (for any `dt` below 2^32) exactly `dt` have elapsed. */
  lemma ElapsedAfterAdvance(t: u32, dt: nat)
    requires dt < TicksModulus
    ensures Elapsed(t, Advance(t, dt)) as int == dt
  {
  }
}
