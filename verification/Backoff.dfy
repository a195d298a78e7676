// The exponential backoff both send loops keep in two local variables:
// `backoff` (the delay) and `backoff_until` (the instant a retry may start).
module Backoff {
  import opened Prelude

  // `streak` is history: the failures since the last reset.
  datatype Backoff = Backoff(delay: nat, until: Option<nat>, streak: nat)

  const CALM := Backoff(0, None, 0)

  /** A transient failure noticed at instant `now`. */
  function Failed(b: Backoff, now: nat, initial: nat, max: nat): Backoff {
    var delay := if b.delay == 0 then initial else Min(b.delay * 2, max);
    Backoff(delay, Some(now + delay), b.streak + 1)
  }

  /** The closed form promised for the delay after `k` failures in a row. */
  function Delay(k: nat, initial: nat, max: nat): nat {
    if k == 0 then 0 else Min(initial * Pow2(k - 1), max)
  }

  /** The earliest instant the next attempt may start. */
  function NotBefore(b: Backoff): nat {
    if b.until.Some? then b.until.value else 0
  }

  ghost predicate OnSchedule(b: Backoff, initial: nat, max: nat) {
    && b.delay == Delay(b.streak, initial, max)
    && (b.streak == 0 <==> b.until.None?)
  }

  lemma FailedOnSchedule(b: Backoff, now: nat, initial: nat, max: nat)
    requires initial <= max && OnSchedule(b, initial, max)
    ensures OnSchedule(Failed(b, now, initial, max), initial, max)
  {
    var k := b.streak;
    if k > 0 {
      var x := initial * Pow2(k - 1);
      assert initial * Pow2(k) == 2 * x by {
        assert Pow2(k) == 2 * Pow2(k - 1);
      }
      // a delay that doubled to zero started from zero
      assert b.delay == 0 ==> initial == 0;
    }
  }

  lemma FailedFacts(b: Backoff, now: nat, initial: nat, max: nat)
    ensures
      var f := Failed(b, now, initial, max);
      f.streak == b.streak + 1 && f.until == Some(now + f.delay)
    ensures OnSchedule(CALM, initial, max)
  {
  }

  function FailedTimes(k: nat, now: nat, initial: nat, max: nat): Backoff {
    if k == 0 then CALM else Failed(FailedTimes(k - 1, now, initial, max), now, initial, max)
  }

  // The validation `backoff-initial <= backoff-max` is exactly what the
  // closed form needs: the first delay is never clamped to the maximum.
  lemma {:induction false} ClosedFormIffValidated(initial: nat, max: nat)
    ensures (forall k, now :: FailedTimes(k, now, initial, max).delay == Delay(k, initial, max)) <==> initial <= max
  {
    if initial <= max {
      forall k: nat, now: nat ensures FailedTimes(k, now, initial, max).delay == Delay(k, initial, max) {
        FailedTimesOnSchedule(k, now, initial, max);
      }
    } else {
      assert FailedTimes(0, 0, initial, max) == CALM;
      assert FailedTimes(1, 0, initial, max).delay == initial;
      assert Pow2(0) == 1;
      assert Delay(1, initial, max) == max;
    }
  }

  lemma {:induction false} FailedTimesOnSchedule(k: nat, now: nat, initial: nat, max: nat)
    requires initial <= max
    ensures OnSchedule(FailedTimes(k, now, initial, max), initial, max)
    ensures FailedTimes(k, now, initial, max).streak == k
  {
    if k > 0 {
      FailedTimesOnSchedule(k - 1, now, initial, max);
      FailedOnSchedule(FailedTimes(k - 1, now, initial, max), now, initial, max);
    }
  }
}
