/**
 * The cached-token record of vault-login/cache/token.go and its two
 * time predicates. The wall clock is an explicit parameter `now`, in
 * whole Unix seconds, so that both predicates are total functions.
 */
module Cache {

  /** Length of the renewal window before expiry, in seconds. */
  const GracePeriodSeconds: int := 600

  /**
   * A token read back from a sink. The record is never updated: a
   * renewal extends the token on the server side only.
   */
  datatype CachedToken = CachedToken(
    token: string,
    expiration: int,    // Unix timestamp in seconds
    renewable: bool,
    authMethod: string  // bookkeeping only, never serialised
  ) {

    /**
     * The current time is strictly after the expiration timestamp: the
     * remaining lifetime is negative, and an expired token is never
     * eligible for renewal.
     */
    predicate Expired(now: int): (b: bool)
      ensures b <==> expiration - now < 0
      ensures b ==> !EligibleForRenewal(now)
    {
      now > expiration
    }

    /**
     * Renewable, and the current time lies strictly between the start of
     * the grace window and the expiration timestamp (both ends excluded).
     */
    predicate EligibleForRenewal(now: int): (b: bool)
      ensures b <==> renewable && 0 < expiration - now < GracePeriodSeconds
      ensures !renewable ==> !b
    {
      var windowStart := expiration - GracePeriodSeconds;
      renewable && now < expiration && now > windowStart
    }
  }

  /** The whole seconds, inside the grace window or at its ends, at which `t` may be renewed. */
  function EligibleSeconds(t: CachedToken): (s: set<int>)
    ensures forall n :: n in s ==> t.EligibleForRenewal(n)
  {
    set n: int | t.expiration - GracePeriodSeconds <= n <= t.expiration && t.EligibleForRenewal(n)
  }

  lemma ExpiredIff(t: CachedToken, now: int)
    ensures t.Expired(now) <==> now > t.expiration
    ensures !t.Expired(t.expiration)
  {
  }

  lemma EligibleIff(t: CachedToken, now: int)
    ensures t.EligibleForRenewal(now) <==>
      t.renewable && t.expiration - GracePeriodSeconds < now < t.expiration
  {
  }

  lemma NotRenewableNeverEligible(t: CachedToken, now: int)
    requires !t.renewable
    ensures !t.EligibleForRenewal(now)
  {
  }

  lemma EligibleImpliesNotExpired(t: CachedToken, now: int)
    requires t.EligibleForRenewal(now)
    ensures !t.Expired(now)
  {
  }

  /** Both ends of the grace window are excluded. */
  lemma WindowBoundaries(t: CachedToken)
    ensures !t.EligibleForRenewal(t.expiration - GracePeriodSeconds)
    ensures !t.EligibleForRenewal(t.expiration) && !t.Expired(t.expiration)
    ensures t.Expired(t.expiration + 1)
  {
  }

  /** Once expired, a token stays expired as time moves on. */
  lemma ExpiredIsMonotone(t: CachedToken, now: int, later: int)
    requires t.Expired(now) && now <= later
    ensures t.Expired(later)
  {
  }

  /** Whole seconds strictly between `lo` and `hi`. */
  function OpenInterval(lo: int, hi: int): (s: set<int>)
    ensures forall n :: n in s <==> lo < n < hi
    decreases hi - lo
  {
    if hi - lo <= 1 then {} else OpenInterval(lo, hi - 1) + {hi - 1}
  }

  lemma {:induction false} OpenIntervalSize(lo: int, hi: int)
    requires lo < hi
    ensures |OpenInterval(lo, hi)| == hi - lo - 1
    decreases hi - lo
  {
    if hi - lo > 1 {
      OpenIntervalSize(lo, hi - 1);
      assert hi - 1 !in OpenInterval(lo, hi - 1);
    }
  }

  /**
   * Because both comparisons are strict, a renewable token is eligible
   * for renewal at exactly GracePeriodSeconds - 1 whole seconds (599),
   * and a non-renewable one at none.
   */
  lemma EligibleSecondsCount(t: CachedToken)
    ensures |EligibleSeconds(t)| == if t.renewable then GracePeriodSeconds - 1 else 0
  {
    if t.renewable {
      assert EligibleSeconds(t) == OpenInterval(t.expiration - GracePeriodSeconds, t.expiration);
      OpenIntervalSize(t.expiration - GracePeriodSeconds, t.expiration);
    } else {
      assert EligibleSeconds(t) == {};
    }
  }

  /**
   * Both predicates depend on the expiration timestamp; neither looks at
   * the token string or the auth method, and `Expired` ignores the
   * renewable flag too.
   */
  lemma PredicatesIgnoreToken(t: CachedToken, other: string, b: bool, now: int)
    ensures t.(token := other).Expired(now) == t.Expired(now)
    ensures t.(token := other).EligibleForRenewal(now) == t.EligibleForRenewal(now)
    ensures t.(authMethod := other).Expired(now) == t.Expired(now)
    ensures t.(authMethod := other).EligibleForRenewal(now) == t.EligibleForRenewal(now)
    ensures t.(renewable := b).Expired(now) == t.Expired(now)
  {
  }
}
