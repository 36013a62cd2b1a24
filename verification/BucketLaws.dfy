/**
  Laws of the token bucket: refilling in two steps is refilling in one, credit is
  conserved, and the retry estimate is sufficient and tight.
 */
module BucketLaws {
  import opened Models
  import opened Int64Math
  import opened TokenBucket

  // ---- splitting time ----

  /** Earning over two spans carries the remainder from one to the next. */
  lemma CreditSplits(b: Bucket, mid: Bucket, r: Rate, e1: int, e2: int)
    requires InRange(b, r) && e1 >= 0 && e2 >= 0
    requires mid.remainder == Credit(b, r, e1) % r.interval
    ensures Credit(b, r, e1 + e2) / r.interval == Credit(b, r, e1) / r.interval + Credit(mid, r, e2) / r.interval
    ensures Credit(b, r, e1 + e2) % r.interval == Credit(mid, r, e2) % r.interval
  {
    var n1, n2, n, d := Credit(b, r, e1), Credit(mid, r, e2), Credit(b, r, e1 + e2), r.interval;
    assert (e1 + e2) * r.refill * MILLI == e1 * r.refill * MILLI + e2 * r.refill * MILLI by {
      assert (e1 + e2) * r.refill == e1 * r.refill + e2 * r.refill;
    }
    var q1, q2 := n1 / d, n2 / d;
    assert n1 == q1 * d + n1 % d && n2 == q2 * d + n2 % d;
    assert n == n1 - n1 % d + n2;
    assert (q1 + q2) * d == q1 * d + q2 * d;
    DivUnique(n, d, q1 + q2, n2 % d);
  }

  lemma CreditMonotone(b: Bucket, r: Rate, e1: int, e2: int)
    requires InRange(b, r) && 0 <= e1 <= e2
    ensures Credit(b, r, e1) / r.interval <= Credit(b, r, e2) / r.interval
  {
    MulMonotone(e1, e2, r.refill);
    var n1, n2, d := Credit(b, r, e1), Credit(b, r, e2), r.interval;
    assert n1 == (n1 / d) * d + n1 % d;
    DivAtLeast(n2, d, n1 / d);
  }

  lemma ExactInRange(b: Bucket, r: Rate, t: Int64)
    requires InRange(b, r)
    ensures InRange(ExactRefill(b, r, t), r)
  {
    RefillIsExact(b, r, t);
  }

  lemma ExactSplits(b: Bucket, r: Rate, t1: Int64, t2: Int64, mid: Bucket)
    requires InRange(b, r) && mid == ExactRefill(b, r, t1) && InRange(mid, r)
    ensures ExactRefill(mid, r, t2) == ExactRefill(b, r, if t1 >= t2 then t1 else t2)
  {
    var e1 := Max(t1, b.lastRefill) - b.lastRefill;
    var e2 := Max(t2, mid.lastRefill) - mid.lastRefill;
    CreditNonNegative(b, r, e1);
    CreditNonNegative(mid, r, e2);
    if mid.tokens == r.capacity * MILLI {
      CreditMonotone(b, r, e1, e1 + e2);
    } else {
      CreditSplits(b, mid, r, e1, e2);
    }
  }

  /** Refilling at t1 and then at t2 is one refill at the later of the two, in
      whatever order the timestamps come and whether or not capacity is reached. */
  lemma RefillSplits(b: Bucket, r: Rate, t1: Int64, t2: Int64)
    requires InRange(b, r)
    ensures Refill(Refill(b, r, t1), r, t2) == Refill(b, r, if t1 >= t2 then t1 else t2)
  {
    var mid := ExactRefill(b, r, t1);
    RefillIsExact(b, r, t1);
    RefillIsExact(b, r, if t1 >= t2 then t1 else t2);
    ExactInRange(b, r, t1);
    RefillIsExact(mid, r, t2);
    ExactSplits(b, r, t1, t2, mid);
  }

  // ---- conservation ----

  /** A bucket's credit in milli-tokens, fraction included. */
  function Worth(b: Bucket, r: Rate): real {
    b.tokens as real + b.remainder as real / r.interval as real
  }

  /** What a rate pays out over `elapsed` ms, in milli-tokens. */
  function Accrual(r: Rate, elapsed: int): real {
    (elapsed * r.refill * MILLI) as real / r.interval as real
  }

  lemma RealDivMod(n: int, d: int)
    requires d > 0
    ensures (n / d) as real + (n % d) as real / d as real == n as real / d as real
  {
    var q, m := n / d, n % d;
    assert n == q * d + m;
    assert n as real == q as real * d as real + m as real;
    assert (q as real * d as real) / d as real == q as real;
  }

  lemma RealQuotientAdds(a: int, b: int, d: int)
    requires d > 0
    ensures (a + b) as real / d as real == a as real / d as real + b as real / d as real
  {
  }

  /** A refill grants exactly the accrual of the elapsed time, or less at capacity. */
  lemma RefillConserves(b: Bucket, r: Rate, now: Int64)
    requires InRange(b, r)
    ensures var after := Refill(b, r, now);
            && after.lastRefill >= b.lastRefill
            && Worth(after, r) <= Worth(b, r) + Accrual(r, after.lastRefill - b.lastRefill)
            && (after.tokens < r.capacity * MILLI
                ==> Worth(after, r) == Worth(b, r) + Accrual(r, after.lastRefill - b.lastRefill))
  {
    RefillIsExact(b, r, now);
    var after := Refill(b, r, now);
    var e := after.lastRefill - b.lastRefill;
    var n, d := Credit(b, r, e), r.interval;
    RealDivMod(n, d);
    RealQuotientAdds(e * r.refill * MILLI, b.remainder, d);
    assert (n % d) as real / d as real >= 0.0;
  }

  lemma WorthNonNegative(b: Bucket, r: Rate)
    requires InRange(b, r)
    ensures Worth(b, r) >= b.tokens as real >= 0.0
  {
  }

  // ---- spending ----

  /** Spending deducts exactly the cost, or changes nothing. */
  lemma SpendIsExact(b: Bucket, cost: Int64, r: Rate)
    requires InRange(b, r) && 1 <= cost <= r.maxCost
    ensures var s := Spend(b, cost, r);
            && s.allowed == (b.tokens >= cost * MILLI)
            && s.bucket == (if s.allowed then b.(tokens := b.tokens - cost * MILLI) else b)
            && InRange(s.bucket, r)
            && (s.allowed ==> s.retryAfter == 0)
  {
    WrapFits(cost * MILLI);
    if b.tokens >= cost * MILLI { WrapFits(b.tokens - cost * MILLI); }
  }

  /** What a denied caller must wait for, in 1/interval milli-tokens. */
  function Shortfall(b: Bucket, cost: Int64, r: Rate): int {
    (cost * MILLI - b.tokens) * r.interval
  }

  /** The estimate is the ceiling of shortfall over rate: the least whole wait whose
      plain accrual covers the need.  No intermediate value overflows. */
  lemma RetryIsCeiling(b: Bucket, cost: Int64, r: Rate)
    requires InRange(b, r) && 1 <= cost <= r.maxCost && b.tokens < cost * MILLI
    ensures var retry := Spend(b, cost, r).retryAfter;
            && retry >= 1
            && (retry - 1) * (r.refill * MILLI) < Shortfall(b, cost, r) <= retry * (r.refill * MILLI)
  {
    var needed, rate := cost * MILLI - b.tokens, r.refill * MILLI;
    var num := needed * r.interval;
    WrapFits(cost * MILLI);
    WrapFits(needed);
    WrapFits(rate);
    MulMonotone(1, needed, r.interval);
    MulMonotone(needed, MAX_CAPACITY * MILLI, r.interval);
    CheckedMulExact(needed, r.interval);
    WrapFits(num + rate);
    WrapFits(num + rate - 1);
    var m := num + rate - 1;
    QuotNonNegative(m, rate);
    QuotBound(m, rate);
    WrapFits(m / rate);
    DivAtLeast(m, rate, 1);
    assert m == (m / rate) * rate + m % rate;
    assert (m / rate - 1) * rate == (m / rate) * rate - rate;
  }

  lemma ExactWait(b: Bucket, cost: Int64, r: Rate, wait: nat)
    requires InRange(b, r) && 1 <= cost <= r.maxCost && b.tokens < cost * MILLI
    requires b.lastRefill + wait <= INT64_MAX
    ensures ExactRefill(b, r, b.lastRefill + wait).tokens >= cost * MILLI
            <==> wait * (r.refill * MILLI) + b.remainder >= Shortfall(b, cost, r)
  {
    var n, need := Credit(b, r, wait), cost * MILLI - b.tokens;
    assert wait * r.refill * MILLI == wait * (r.refill * MILLI);
    if n >= need * r.interval {
      DivAtLeast(n, r.interval, need);
    } else {
      DivBelow(n, r.interval, need);
    }
  }

  /** Waiting `wait` ms from the last refill is enough exactly when the accrual and
      the carried remainder cover the shortfall. */
  lemma WaitSuffices(b: Bucket, cost: Int64, r: Rate, wait: nat)
    requires InRange(b, r) && 1 <= cost <= r.maxCost && b.tokens < cost * MILLI
    requires b.lastRefill + wait <= INT64_MAX
    ensures Spend(Refill(b, r, b.lastRefill + wait), cost, r).allowed
            <==> wait * (r.refill * MILLI) + b.remainder >= Shortfall(b, cost, r)
  {
    var after := ExactRefill(b, r, b.lastRefill + wait);
    RefillIsExact(b, r, b.lastRefill + wait);
    ExactInRange(b, r, b.lastRefill + wait);
    SpendIsExact(after, cost, r);
    ExactWait(b, cost, r, wait);
  }

  /** Retry-after is sufficient and tight: that long past the last refill the cost is
      always affordable, and no wait whose plain accrual falls a whole milli-token
      short of the need is enough. */
  lemma RetrySuffices(b: Bucket, cost: Int64, r: Rate, wait: nat)
    requires InRange(b, r) && 1 <= cost <= r.maxCost && b.tokens < cost * MILLI
    requires b.lastRefill + wait <= INT64_MAX
    ensures wait >= Spend(b, cost, r).retryAfter ==> Spend(Refill(b, r, b.lastRefill + wait), cost, r).allowed
    ensures wait * (r.refill * MILLI) <= Shortfall(b, cost, r) - r.interval
            ==> !Spend(Refill(b, r, b.lastRefill + wait), cost, r).allowed
  {
    WaitSuffices(b, cost, r, wait);
    RetryIsCeiling(b, cost, r);
    var retry := Spend(b, cost, r).retryAfter;
    if wait >= retry { MulMonotone(retry, wait, r.refill * MILLI); }
  }
}
