/**
  The token bucket updated in place, as the limiter does while it applies a
  command: a loaded bucket is refilled, then spent from, then written back.
 */
module BucketCell {
  import opened Models
  import opened Int64Math
  import opened TokenBucket

  class Cell {
    var policyId: Str
    var subject: Str
    var tokens: Int64
    var lastRefill: Int64
    var remainder: Int64
    var policyVersion: nat
    var updatedIndex: nat

    function Value(): Bucket
      reads this
    {
      Bucket(policyId, subject, tokens, lastRefill, remainder, policyVersion, updatedIndex)
    }

    constructor (b: Bucket)
      ensures Value() == b
    {
      policyId, subject, tokens, lastRefill := b.policyId, b.subject, b.tokens, b.lastRefill;
      remainder, policyVersion, updatedIndex := b.remainder, b.policyVersion, b.updatedIndex;
    }

    /** Advance to `now`, or stay if that is past; at capacity the remainder resets. */
    method RefillBucket(r: Rate, now: Int64)
      modifies `tokens, `lastRefill, `remainder
      ensures Value() == Refill(old(Value()), r, now)
    {
      var cap := Wrap(r.capacity * MILLI);
      var effective := lastRefill;
      if now > effective { effective := now; }
      var elapsed := Wrap(effective - lastRefill);
      var (added, rem, overflow) := ComputeAdded(elapsed, r.refill, r.interval, remainder);
      if overflow {
        tokens := cap;
        remainder := 0;
        lastRefill := effective;
        return;
      }
      var (total, addOverflow) := CheckedAdd(tokens, added);
      if addOverflow || total >= cap {
        tokens := cap;
        remainder := 0;
      } else {
        tokens := total;
        remainder := rem;
      }
      lastRefill := effective;
    }

    /** Deduct the cost, or leave the balance and estimate how long it will take. */
    method SpendTokens(cost: Int64, r: Rate) returns (allowed: bool, retryAfter: Int64)
      modifies `tokens
      ensures Spending(Value(), allowed, retryAfter) == Spend(old(Value()), cost, r)
    {
      var costMilli := Wrap(cost * MILLI);
      if tokens >= costMilli {
        tokens := Wrap(tokens - costMilli);
        return true, 0;
      }
      retryAfter := EstimateRetry(Wrap(costMilli - tokens), r);
      return false, retryAfter;
    }

    static method EstimateRetry(needed: Int64, r: Rate) returns (retry: Int64)
      ensures retry == RetryFor(needed, r)
    {
      var rate := Wrap(r.refill * MILLI);
      var (num, overflow) := CheckedMul(needed, r.interval);
      if overflow { return r.interval; }
      retry := Wrap(Quot(Wrap(Wrap(num + rate) - 1), rate));
      if retry <= 0 { retry := 1; }
    }
  }
}
