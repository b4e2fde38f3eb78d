/** The millisecond tick counter the controller reads for every timeout.
    It is a 32-bit unsigned counter (uint32_t), so it wraps after about 49.7
    days, and every elapsed-time test is an unsigned 32-bit subtraction. */
module Clock {

  const TickModulus: int := 0x1_0000_0000

  /** A reading of the tick counter (HAL_GetTick). */
  type Tick = x: int | 0 <= x < TickModulus

  /** Milliseconds from `since` to `now` as the unsigned subtraction
      `now - since` of the source computes them: modulo 2^32. */
  function Elapsed(now: Tick, since: Tick): (e: Tick)
    ensures since <= now ==> e == now - since
    ensures now < since ==> e == TickModulus - since + now
  {
    (now - since) % TickModulus
  }

  /** The timeout test `now - since > limit` used for every window. */
  predicate Exceeds(now: Tick, since: Tick, limit: Tick)
  {
    Elapsed(now, since) > limit
  }

  /** Adding the measured elapsed time to the start of a window lands on the
      end of the window again, modulo 2^32: the subtraction loses nothing,
      even across the wrap. */
  lemma ElapsedRoundTrip(now: Tick, since: Tick)
    ensures (since + Elapsed(now, since)) % TickModulus == now
  {
  }
}
