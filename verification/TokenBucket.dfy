/**
  The token bucket: refill and spend in 64-bit integer arithmetic, the exact
  arithmetic they implement, and the laws that the limiter rests on.
 */
module TokenBucket {
  import opened Models
  import opened Int64Math

  const MILLI: int := 1000

  function Max(a: int, b: int): int { if a >= b then a else b }

  // ---- the code ----

  /** Milli-tokens earned in `elapsed` ms, the new remainder, and an overflow flag. */
  function ComputeAdded(elapsed: Int64, refill: Int64, interval: Int64, remainder: Int64): (Int64, Int64, bool)
    requires interval != 0
  {
    var (step1, ovf1) := CheckedMul(elapsed, refill);
    if ovf1 then (0, 0, true)
    else
      var (step2, ovf2) := CheckedMul(step1, MILLI);
      if ovf2 then (0, 0, true)
      else
        var (numerator, ovf3) := CheckedAdd(step2, remainder);
        if ovf3 then (0, 0, true)
        else (Wrap(Quot(numerator, interval)), Wrap(Rem(numerator, interval)), false)
  }

  /** Advance a bucket to `now` under a rate. */
  function Refill(b: Bucket, r: Rate, now: Int64): Bucket {
    var cap := Wrap(r.capacity * MILLI);
    var effective := if now > b.lastRefill then now else b.lastRefill;
    var elapsed := Wrap(effective - b.lastRefill);
    var (added, rem, overflow) := ComputeAdded(elapsed, r.refill, r.interval, b.remainder);
    if overflow then b.(tokens := cap, remainder := 0, lastRefill := effective)
    else
      var (total, ovf) := CheckedAdd(b.tokens, added);
      if ovf || total >= cap then b.(tokens := cap, remainder := 0, lastRefill := effective)
      else b.(tokens := total, remainder := rem, lastRefill := effective)
  }

  datatype Spending = Spending(bucket: Bucket, allowed: bool, retryAfter: Int64)

  /** An estimate, in ms, of when `needed` more milli-tokens will have accrued. */
  function RetryFor(needed: Int64, r: Rate): Int64 {
    var rate := Wrap(r.refill * MILLI);
    var (num, ovf) := CheckedMul(needed, r.interval);
    if ovf then r.interval
    else
      var retry := Wrap(Quot(Wrap(Wrap(num + rate) - 1), rate));
      if retry <= 0 then 1 else retry
  }

  /** Deduct `cost` whole tokens, or estimate when they will have accrued. */
  function Spend(b: Bucket, cost: Int64, r: Rate): Spending {
    var costMilli := Wrap(cost * MILLI);
    if b.tokens >= costMilli then Spending(b.(tokens := Wrap(b.tokens - costMilli)), true, 0)
    else Spending(b, false, RetryFor(Wrap(costMilli - b.tokens), r))
  }

  // ---- exact arithmetic ----

  /** A balance within capacity, a remainder within the interval, a time at or after 0. */
  predicate InRange(b: Bucket, r: Rate) {
    && 0 <= b.tokens <= r.capacity * MILLI
    && 0 <= b.remainder < r.interval
    && 0 <= b.lastRefill
  }

  /** Fractional credit, in units of 1/interval milli-token, after `elapsed` ms. */
  function Credit(b: Bucket, r: Rate, elapsed: int): int {
    elapsed * r.refill * MILLI + b.remainder
  }

  /** The refill that the code computes, on unbounded integers. */
  function ExactRefill(b: Bucket, r: Rate, now: Int64): Bucket
    requires InRange(b, r)
  {
    var at := Max(now, b.lastRefill);
    var n := Credit(b, r, at - b.lastRefill);
    CreditNonNegative(b, r, at - b.lastRefill);
    if b.tokens + n / r.interval >= r.capacity * MILLI then
      b.(tokens := r.capacity * MILLI, remainder := 0, lastRefill := at)
    else
      b.(tokens := b.tokens + n / r.interval, remainder := n % r.interval, lastRefill := at)
  }

  lemma CreditNonNegative(b: Bucket, r: Rate, elapsed: int)
    requires InRange(b, r) && elapsed >= 0
    ensures Credit(b, r, elapsed) >= 0 && Credit(b, r, elapsed) / r.interval >= 0
    ensures elapsed * r.refill >= 0
  {
    MulMonotone(0, elapsed, r.refill);
    DivAtLeast(Credit(b, r, elapsed), r.interval, 0);
  }

  /** Anything too large for 64 bits fills every admissible bucket. */
  lemma OverflowFills(b: Bucket, r: Rate, elapsed: int)
    requires InRange(b, r) && elapsed >= 0 && Credit(b, r, elapsed) > INT64_MAX
    ensures b.tokens + Credit(b, r, elapsed) / r.interval >= r.capacity * MILLI
  {
    MulMonotone(r.interval, MAX_INTERVAL, MAX_CAPACITY * MILLI);
    DivAtLeast(Credit(b, r, elapsed), r.interval, MAX_CAPACITY * MILLI);
  }

  lemma NumeratorExact(b: Bucket, r: Rate, elapsed: Int64)
    requires InRange(b, r) && elapsed >= 0
    ensures var n := Credit(b, r, elapsed); var (s1, o1) := CheckedMul(elapsed, r.refill);
            if o1 then n > INT64_MAX
            else
              var (s2, o2) := CheckedMul(s1, MILLI);
              if o2 then n > INT64_MAX
              else CheckedAdd(s2, b.remainder) == if n <= INT64_MAX then (n, false) else (0, true)
  {
    var p := elapsed * r.refill;
    CreditNonNegative(b, r, elapsed);
    CheckedMulExact(elapsed, r.refill);
    if p <= INT64_MAX {
      CheckedMulExact(p, MILLI);
      if p * MILLI <= INT64_MAX { CheckedAddExact(p * MILLI, b.remainder); }
    }
  }

  lemma ComputeAddedExact(b: Bucket, r: Rate, elapsed: Int64)
    requires InRange(b, r) && elapsed >= 0
    ensures var n := Credit(b, r, elapsed);
            ComputeAdded(elapsed, r.refill, r.interval, b.remainder)
            == if n <= INT64_MAX then (n / r.interval, n % r.interval, false) else (0, 0, true)
  {
    var n := Credit(b, r, elapsed);
    CreditNonNegative(b, r, elapsed);
    NumeratorExact(b, r, elapsed);
    QuotNonNegative(n, r.interval);
    QuotBound(n, r.interval);
    if n <= INT64_MAX {
      WrapFits(n / r.interval);
      WrapFits(n % r.interval);
    }
  }

  /** The 64-bit refill is exact: min(capacity, tokens + floor) with the exact
      remainder, for every validated rate, admissible bucket and timestamp. */
  lemma RefillIsExact(b: Bucket, r: Rate, now: Int64)
    requires InRange(b, r)
    ensures Refill(b, r, now) == ExactRefill(b, r, now)
    ensures InRange(Refill(b, r, now), r)
  {
    var at := Max(now, b.lastRefill);
    var elapsed := at - b.lastRefill;
    var n := Credit(b, r, elapsed);
    WrapFits(elapsed);
    WrapFits(r.capacity * MILLI);
    CreditNonNegative(b, r, elapsed);
    ComputeAddedExact(b, r, elapsed);
    if n <= INT64_MAX {
      QuotBound(n, r.interval);
      CheckedAddExact(b.tokens, n / r.interval);
    } else {
      OverflowFills(b, r, elapsed);
    }
  }
}
