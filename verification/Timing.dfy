/** The times of a lease in `uint32_t` arithmetic: the T1/T2 defaults and the three periods that the lease
    timer is armed for, one after the other, between entering BOUND and losing the lease (section 4.4.5 of
    RFC 2131). Every product and every `uint32_t` store wraps modulo 2^32. */
module Timing {
  import opened Net

  const RETRANSMIT_INITIAL_MS := 4000
  const RETRANSMIT_MAX_MS := 64000
  const MAX_REQUEST_RETRANSMITS := 4
  const ARP_PROBE_TIMEOUT_MS := 1000
  const PROBE_HANDOFF_MS := 1
  const MAX_DECLINE_RETRIES := 3
  const DECLINE_PAUSE_MS := 10000

  function DefaultT1(leaseTime: u32): u32 {
    leaseTime / 2
  }

  function DefaultT2(leaseTime: u32): u32 {
    Wrap32(leaseTime * 7) / 8
  }

  function T1Period(t1: u32): u32 {
    var ms := Wrap32(t1 * 1000);
    if ms == 0 then 1 else ms
  }

  function T2Period(t1: u32, t2: u32): u32 {
    Wrap32((if t2 > t1 then t2 - t1 else 1) * 1000)
  }

  function ExpiryPeriod(t2: u32, leaseTime: u32): u32 {
    Wrap32((if leaseTime > t2 then leaseTime - t2 else 1) * 1000)
  }

  /** 125 and 2^29 have no common divisor; 98 is the inverse of 2^29 modulo 125. */
  lemma NoCommonDivisor(d: int, k: int)
    requires d * 125 == 0x2000_0000 * k && 0 <= k < 125
    ensures d == 0
  {
    var m := 98 * d - 420906795 * k;
    assert k == 125 * m;
    assert m == 0;
  }

  lemma WrapsToZero(seconds: u32)
    ensures Wrap32(seconds * 1000) == 0 <==> seconds % 0x2000_0000 == 0
  {
    var d := seconds % 0x2000_0000;
    var k := d * 1000 / U32_RANGE;
    if Wrap32(seconds * 1000) == 0 {
      assert d * 125 == 0x2000_0000 * k;
      NoCommonDivisor(d, k);
    }
  }

  /** The three periods, each the time to the next of T1, T2 and the end of the lease, in milliseconds modulo 2^32.
      Where the next is not later it counts as one second later, and a T1 that would give no time as one
      millisecond. */
  lemma PeriodsInMilliseconds(t1: u32, t2: u32, leaseTime: u32)
    ensures t1 * 1000 < 0x1_0000_0000 ==> T1Period(t1) == if t1 == 0 then 1 else 1000 * t1
    ensures t2 <= t1 ==> T2Period(t1, t2) == 1000
    ensures t2 > t1 ==> exists k: nat :: T2Period(t1, t2) + 0x1_0000_0000 * k == 1000 * (t2 - t1)
    ensures leaseTime <= t2 ==> ExpiryPeriod(t2, leaseTime) == 1000
    ensures leaseTime > t2 ==>
              exists k: nat :: ExpiryPeriod(t2, leaseTime) + 0x1_0000_0000 * k == 1000 * (leaseTime - t2)
  {
    if t2 > t1 {
      assert T2Period(t1, t2) + 0x1_0000_0000 * ((t2 - t1) * 1000 / U32_RANGE) == 1000 * (t2 - t1);
    }
    if leaseTime > t2 {
      var d := leaseTime - t2;
      assert ExpiryPeriod(t2, leaseTime) + 0x1_0000_0000 * (d * 1000 / U32_RANGE) == 1000 * d;
    }
  }

  /** Only the first of the three periods is kept from being zero, which a timer may take to mean anything. The
      others are zero exactly when the product wraps to it: when the times are ordered and 2^29 seconds, or a
      multiple of that, apart. */
  lemma PeriodsZero(t1: u32, t2: u32, leaseTime: u32)
    ensures T1Period(t1) >= 1
    ensures T2Period(t1, t2) == 0 <==> t2 > t1 && (t2 - t1) % 0x2000_0000 == 0
    ensures ExpiryPeriod(t2, leaseTime) == 0 <==> leaseTime > t2 && (leaseTime - t2) % 0x2000_0000 == 0
  {
    WrapsToZero(if t2 > t1 then t2 - t1 else 1);
    WrapsToZero(if leaseTime > t2 then leaseTime - t2 else 1);
  }

  /** How long the three periods last together. */
  function Budget(t1: u32, t2: u32, leaseTime: u32): nat {
    T1Period(t1) + T2Period(t1, t2) + ExpiryPeriod(t2, leaseTime)
  }

  function DefaultBudget(leaseTime: u32): nat {
    Budget(DefaultT1(leaseTime), DefaultT2(leaseTime), leaseTime)
  }

  predicate Unwrapped(seconds: int) {
    seconds * 1000 < U32_RANGE
  }

  /** Section 4.4.5 of RFC 2131: T1 is half the lease time, and T2 seven eighths of it, both rounded down. The
      product wraps from 613566757 seconds on, and then T2 is less. */
  lemma DefaultsAreFractions(leaseTime: u32)
    ensures 2 * DefaultT1(leaseTime) <= leaseTime < 2 * DefaultT1(leaseTime) + 2
    ensures 8 * DefaultT2(leaseTime) <= 7 * leaseTime
    ensures 7 * leaseTime < 8 * DefaultT2(leaseTime) + 8 <==> leaseTime < 613566757
  {
    WrapShrinks(leaseTime * 7);
  }

  /** With ordered times the periods never overrun the lease, and they fill it exactly when no product
      wraps. */
  lemma OrderedBudget(t1: u32, t2: u32, leaseTime: u32)
    requires 1 <= t1 < t2 < leaseTime
    ensures Budget(t1, t2, leaseTime) <= 1000 * leaseTime
    ensures Budget(t1, t2, leaseTime) == 1000 * leaseTime
       <==> Unwrapped(t1) && Unwrapped(t2 - t1) && Unwrapped(leaseTime - t2)
  {
    WrapShrinks(t1 * 1000);
    WrapShrinks((t2 - t1) * 1000);
    WrapShrinks((leaseTime - t2) * 1000);
  }

  lemma WrapShrinks(x: nat)
    ensures Wrap32(x) <= x && (Wrap32(x) == x <==> x < U32_RANGE)
  {
  }

  /** A server that sends times out of order makes the interface outlive its lease: below the wrapping
      range the budget stays within the lease exactly when 1 <= T1 < T2 < lease time. */
  lemma BudgetFitsExactlyWhenOrdered(t1: u32, t2: u32, leaseTime: u32)
    requires Unwrapped(t1) && Unwrapped(t2) && Unwrapped(leaseTime)
    ensures Budget(t1, t2, leaseTime) <= 1000 * leaseTime <==> 1 <= t1 < t2 < leaseTime
  {
    WrapShrinks(t1 * 1000);
    WrapShrinks((if t2 > t1 then t2 - t1 else 1) * 1000);
    WrapShrinks((if leaseTime > t2 then leaseTime - t2 else 1) * 1000);
  }

  lemma DefaultsOrdered(leaseTime: u32)
    requires leaseTime * 7 < U32_RANGE
    ensures 1 <= DefaultT1(leaseTime) < DefaultT2(leaseTime) < leaseTime <==> leaseTime >= 3
  {
  }

  lemma BudgetBelow(t1: u32, t2: u32, leaseTime: u32)
    ensures Budget(t1, t2, leaseTime) < 3 * U32_RANGE
  {
  }

  /** The three ranges of lease times: too short for the defaults to be ordered, ordered, and so long that
      the default T2 itself wraps, where the lease outlasts any three periods. */
  lemma DefaultBudgetCases(leaseTime: u32)
    ensures leaseTime < 3 ==> DefaultBudget(leaseTime) > 1000 * leaseTime
    ensures 3 <= leaseTime && leaseTime * 7 < U32_RANGE ==>
              var t1, t2 := DefaultT1(leaseTime), DefaultT2(leaseTime);
              && 1 <= t1 < t2 < leaseTime && DefaultBudget(leaseTime) <= 1000 * leaseTime
              && (DefaultBudget(leaseTime) == 1000 * leaseTime
                  <==> Unwrapped(t1) && Unwrapped(t2 - t1) && Unwrapped(leaseTime - t2))
    ensures leaseTime * 7 >= U32_RANGE ==> DefaultBudget(leaseTime) < 1000 * leaseTime
  {
    var t1, t2 := DefaultT1(leaseTime), DefaultT2(leaseTime);
    if leaseTime * 7 >= U32_RANGE {
      BudgetBelow(t1, t2, leaseTime);
    } else {
      DefaultsOrdered(leaseTime);
      if leaseTime < 3 {
        BudgetFitsExactlyWhenOrdered(t1, t2, leaseTime);
      } else {
        OrderedBudget(t1, t2, leaseTime);
      }
    }
  }

  /** With the default T1 and T2 the three periods sum to exactly the lease time for lease times from
      3 to 8589935 seconds and for no other; in that range no product wraps. */
  lemma DefaultBudgetExact(leaseTime: u32)
    ensures DefaultBudget(leaseTime) == 1000 * leaseTime <==> 3 <= leaseTime <= 8589935
    ensures 3 <= leaseTime <= 8589935 ==>
              var t1, t2 := DefaultT1(leaseTime), DefaultT2(leaseTime);
              1 <= t1 < t2 < leaseTime && Unwrapped(t1) && Unwrapped(t2 - t1) && Unwrapped(leaseTime - t2)
  {
    DefaultBudgetCases(leaseTime);
    if leaseTime * 7 < U32_RANGE {
      WhereDefaultsWrap(leaseTime);
    }
  }

  lemma WhereDefaultsWrap(leaseTime: u32)
    requires leaseTime * 7 < U32_RANGE
    ensures var t1, t2 := DefaultT1(leaseTime), DefaultT2(leaseTime);
            Unwrapped(t1) && Unwrapped(t2 - t1) && Unwrapped(leaseTime - t2) <==> leaseTime <= 8589935
  {
  }

  /** With the default T1 and T2 the periods never overrun a lease of three seconds or more, and they
      always overrun a shorter one. */
  lemma DefaultBudgetNeverOverruns(leaseTime: u32)
    ensures DefaultBudget(leaseTime) <= 1000 * leaseTime <==> leaseTime >= 3
  {
    DefaultBudgetCases(leaseTime);
  }

  // ---- retransmission ----------------------------------------------------------------------------

  /** `next_backoff`. */
  function NextBackoff(ms: u32): u32 {
    var next := Wrap32(ms * 2);
    if next > RETRANSMIT_MAX_MS then RETRANSMIT_MAX_MS else next
  }

  /** The interval after the `k`-th resend of a phase: doubling, capped (section 4.1 of RFC 2131). */
  function Backoff(k: nat): nat {
    var ms := RETRANSMIT_INITIAL_MS * Pow2(k);
    if ms > RETRANSMIT_MAX_MS then RETRANSMIT_MAX_MS else ms
  }

  /** The waits of a phase, in seconds: 4, 8, 16, 32, and then 64 each time. */
  lemma BackoffValues(k: nat)
    ensures Backoff(0) == 4000 && Backoff(1) == 8000 && Backoff(2) == 16000 && Backoff(3) == 32000
    ensures k >= 4 ==> Backoff(k) == 64000
  {
    assert Pow2(1) == 2 && Pow2(2) == 4 && Pow2(3) == 8;
    if k >= 4 {
      Pow2Grows(k);
    }
  }

  lemma {:induction false} Pow2Grows(k: nat)
    requires k >= 4
    ensures Pow2(k) >= 16
  {
    if k == 4 {
      assert Pow2(3) == 8;
    } else {
      Pow2Grows(k - 1);
    }
  }

  lemma BackoffDoubles(k: nat)
    ensures RETRANSMIT_INITIAL_MS <= Backoff(k) <= RETRANSMIT_MAX_MS
    ensures NextBackoff(Backoff(k)) == Backoff(k + 1)
  {
    assert Pow2(k + 1) == 2 * Pow2(k);
  }
}
