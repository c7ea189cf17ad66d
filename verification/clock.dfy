/**
 * The controller's millisecond clock.  Timestamps are 32-bit unsigned values,
 * so the elapsed time between two of them is their difference modulo 2^32.
 */
module Clock {

  const U32Modulus: int := 0x1_0000_0000

  /** A uint32_t millisecond timestamp. */
  type U32 = x: int | 0 <= x < U32Modulus

  /** `now - since` in uint32_t arithmetic: the difference, wrapped around when `now` is the smaller. */
  function Elapsed(now: U32, since: U32): (d: U32)
    ensures now >= since ==> d == now - since
    ensures now < since ==> d == now - since + U32Modulus
    ensures (since + d) % U32Modulus == now
  {
    (now - since) % U32Modulus
  }

  /** The timestamp `k` milliseconds after `t`, wrapped around at 2^32. */
  function After(t: U32, k: nat): (r: U32)
  {
    (t + k) % U32Modulus
  }

  /** Elapsed undoes After for every delay the clock can represent. */
  lemma {:induction false} ElapsedAfter(t: U32, k: nat)
    requires k < U32Modulus
    ensures Elapsed(After(t, k), t) == k
  {
    if t + k < U32Modulus {
      assert After(t, k) == t + k;
    } else {
      assert After(t, k) == t + k - U32Modulus;
    }
  }
}
