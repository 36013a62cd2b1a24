/**
  The verdict is exact.  A policy update loses nothing but what it must, a first-seen
  subject starts with the full capacity, and under an unchanging rate a request is allowed
  exactly when no window of the bucket's history, with it, spends more than one capacity
  and the refill of that window.
 */
module Windows {
  import opened Models
  import opened Int64Math
  import opened TokenBucket
  import opened BucketLaws
  import opened StateMachine
  import opened StoreInvariant
  import opened Idempotency
  import opened CommandLaws
  import opened Ledger

  // ---- policy updates keep what was earned ----

  /** The credit that a conversion should leave: what was there, and what the old rate paid since. */
  function Earned(b: Bucket, before: Rate, converted: Bucket): real {
    Worth(b, before) + Accrual(before, converted.lastRefill - b.lastRefill)
  }

  /** What a conversion does to a refilled bucket. */
  lemma Converted(b: Bucket, before: Rate, after: Rate, ts: Int64, version: nat)
    requires InRange(b, before)
    ensures var m, c := Refill(b, before, ts), Convert(b, before, after, ts, version);
            && InRange(m, before) && m.lastRefill == Max(ts, b.lastRefill)
            && c.lastRefill == m.lastRefill && c.policyVersion == version
            && c.tokens == (if m.tokens <= after.capacity * MILLI then m.tokens else after.capacity * MILLI)
            && c.remainder == (if before.interval == after.interval then m.remainder else 0)
  {
    RefillIsExact(b, before, ts);
    WrapFits(after.capacity * MILLI);
  }

  lemma FractionSmall(b: Bucket, r: Rate)
    requires InRange(b, r)
    ensures b.tokens as real <= Worth(b, r) < b.tokens as real + 1.0
  {
    ProperFraction(b.remainder, r.interval);
  }

  lemma ProperFraction(n: int, d: int)
    requires 0 <= n < d
    ensures 0.0 <= n as real / d as real < 1.0
  {
    var q := n as real / d as real;
    assert q * d as real == n as real;
  }

  /** A conversion keeps all that was earned, less than a milli-token aside when the
      interval changes; more is lost only at one of the two capacities, where the balance is
      that capacity. */
  lemma ConvertKeeps(b: Bucket, before: Rate, after: Rate, ts: Int64, version: nat)
    requires InRange(b, before)
    ensures var c := Convert(b, before, after, ts, version);
            && c.lastRefill == Max(ts, b.lastRefill) && c.policyVersion == version
            && Earned(b, before, c) >= c.tokens as real
            && (c.tokens == before.capacity * MILLI || c.tokens == after.capacity * MILLI
                || (c.tokens < before.capacity * MILLI && c.tokens < after.capacity * MILLI
                    && (if before.interval == after.interval then Worth(c, after) == Earned(b, before, c)
                        else Earned(b, before, c) - 1.0 < Worth(c, after) <= Earned(b, before, c))))
  {
    Converted(b, before, after, ts, version);
    RefillConserves(b, before, ts);
    FractionSmall(Refill(b, before, ts), before);
  }

  // ---- a first decision ----

  ghost predicate Fresh(s: AppState, e: LogEntry) {
    Step(s, e).Applied? && Step(s, e).result.Decided? && !Step(s, e).result.duplicate
  }

  /** The bucket that a decision is about. */
  function BucketOf(d: Decision): Key { (d.policyId, d.subject) }

  lemma FreshIsCharge(s: AppState, e: LogEntry)
    requires Fresh(s, e)
    ensures e.payload.Carries? && e.payload.command.body.Decide?
    ensures var p, ts := e.payload.command.body, e.payload.command.timestamp;
            && RequestOk(p) && Refusal(s, p).None? && Step(s, e) == Charge(s, Position(e.index, e.term), ts, p)
            && BucketOf(Step(s, e).result.decision) == (p.policyId, p.subject)
            && Step(s, e).result.decision.cost == p.cost
  {
  }

  /** A subject seen for the first time has the whole capacity to spend from. */
  lemma FirstDecision(s: AppState, e: LogEntry)
    requires StoreOk(s) && Timely(e) && Fresh(s, e) && BucketOf(Step(s, e).result.decision) !in s.buckets
    ensures var d, s' := Step(s, e).result.decision, Step(s, e).state;
            && d.policyId in s.policies && d.allowed
            && d.remaining == (s.policies[d.policyId].rate.capacity - d.cost) * MILLI
            && BucketOf(d) in s'.buckets && s'.buckets[BucketOf(d)].tokens == d.remaining
            && s'.buckets[BucketOf(d)].remainder == 0
            && s'.buckets[BucketOf(d)].lastRefill == e.payload.command.timestamp
  {
    FreshIsCharge(s, e);
    var p, ts := e.payload.command.body, e.payload.command.timestamp;
    var policy := s.policies[p.policyId];
    assert PolicyOk(s.policies, p.policyId);
    LoadedInRange(s, policy, p.subject, ts);
    WrapFits(policy.rate.capacity * MILLI);
    var b := LoadBucket(s, policy, p.subject, ts);
    RefillIsExact(b, policy.rate, ts);
    CreditNonNegative(b, policy.rate, 0);
    SpendIsExact(Refill(b, policy.rate, ts), p.cost, policy.rate);
  }

  // ---- one entry, exactly ----

  function Full(r: Rate): real { (r.capacity * MILLI) as real }

  function Clock(s: AppState, key: Key): int { if key in s.buckets then s.buckets[key].lastRefill else 0 }

  /** What the rate paid out between two states. */
  function Gain(s: AppState, s': AppState, key: Key, r: Rate): real { Accrual(r, Clock(s', key) - Clock(s, key)) }

  /** The entry accounts for every milli-token: the charge and the new balance are the old
      balance and the accrual, or, when the bucket was full or new, the capacity. */
  ghost predicate Exact(s: AppState, s': AppState, charge: int, key: Key, r: Rate) {
    && (key in s.buckets ==> Clock(s', key) >= Clock(s, key))
    && var after := charge as real + Balance(s', key);
    || after == Full(r)
    || (&& key in s.buckets && after == Balance(s, key) + Gain(s, s', key, r)
        && (after < Full(r) || after == Balance(s, key)))
  }

  /** A refill, exactly. */
  lemma RefillExactly(b: Bucket, r: Rate, ts: Int64)
    requires InRange(b, r)
    ensures var m := Refill(b, r, ts);
            && m.lastRefill == Max(ts, b.lastRefill)
            && (if m.tokens == r.capacity * MILLI then Worth(m, r) == Full(r)
                else Full(r) > Worth(m, r) == Worth(b, r) + Accrual(r, m.lastRefill - b.lastRefill))
  {
    RefillConserves(b, r, ts);
    RefillIsExact(b, r, ts);
    FractionSmall(Refill(b, r, ts), r);
  }

  lemma SameExact(s: AppState, s': AppState, key: Key, r: Rate)
    requires key in s.buckets && key in s'.buckets && key.0 in s.policies && key.0 in s'.policies
    requires s.policies[key.0].rate == r == s'.policies[key.0].rate && s'.buckets[key] == s.buckets[key]
    ensures Exact(s, s', 0, key, r)
  {
    assert Accrual(r, 0) == 0.0;
  }

  lemma ChargeExact(s: AppState, e: LogEntry, key: Key, r: Rate)
    requires StoreOk(s) && Timely(e) && Fresh(s, e) && BucketOf(Step(s, e).result.decision) == key
    requires key.0 in s.policies && s.policies[key.0].rate == r
    ensures key in Step(s, e).state.buckets
    ensures Exact(s, Step(s, e).state, ChargeIn(Step(s, e).result, key), key, r)
  {
    FreshIsCharge(s, e);
    if key in s.buckets {
      var p, ts := e.payload.command.body, e.payload.command.timestamp;
      assert PolicyOk(s.policies, p.policyId) && BucketOk(s.buckets, s.policies, key);
      SpendExactly(s.buckets[key], r, ts, p.cost);
    } else {
      FirstDecision(s, e);
      assert Worth(Step(s, e).state.buckets[key], r) == Step(s, e).state.buckets[key].tokens as real;
    }
  }

  lemma SpendExactly(b: Bucket, r: Rate, ts: Int64, cost: Int64)
    requires InRange(b, r) && 1 <= cost <= r.maxCost
    ensures var spent := Spend(Refill(b, r, ts), cost, r);
            var after := (if spent.allowed then cost * MILLI else 0) as real + Worth(spent.bucket, r);
            && spent.bucket.lastRefill == Max(ts, b.lastRefill)
            && spent.bucket.policyId == b.policyId && spent.bucket.subject == b.subject
            && (|| after == Full(r)
                || Full(r) > after == Worth(b, r) + Accrual(r, spent.bucket.lastRefill - b.lastRefill))
  {
    RefillExactly(b, r, ts);
    RefillIsExact(b, r, ts);
    SpendIsExact(Refill(b, r, ts), cost, r);
    WorthOfSpent(Refill(b, r, ts), r, Spend(Refill(b, r, ts), cost, r).bucket.tokens);
  }

  lemma UpdateExact(s: AppState, at: Position, ts: Int64, p: Body, key: Key, r: Rate)
    requires StoreOk(s) && p.UpdatePolicy? && ApplyUpdatePolicy(s, at, ts, p).result.PolicyChanged?
    requires key in s.buckets && key.0 in s.policies && s.policies[key.0].rate == r
    requires var s' := ApplyUpdatePolicy(s, at, ts, p).state; key.0 in s'.policies && s'.policies[key.0].rate == r
    ensures Exact(s, ApplyUpdatePolicy(s, at, ts, p).state, 0, key, r)
  {
    var s' := ApplyUpdatePolicy(s, at, ts, p).state;
    assert BucketOk(s.buckets, s.policies, key) && PolicyOk(s.policies, p.id);
    if key.0 == p.id {
      RefillExactly(s.buckets[key], r, ts);
      RefillIsExact(s.buckets[key], r, ts);
      WrapFits(r.capacity * MILLI);
    } else {
      SameExact(s, s', key, r);
    }
  }

  /** Everything but a fresh decision on the bucket and an update of its policy leaves it alone. */
  lemma OthersLeave(s: AppState, e: LogEntry, key: Key)
    requires StoreOk(s) && Timely(e) && Step(s, e).Applied? && key in Step(s, e).state.buckets
    requires !(Fresh(s, e) && BucketOf(Step(s, e).result.decision) == key)
    requires !(e.payload.Carries? && e.payload.command.body.UpdatePolicy? && Step(s, e).result.PolicyChanged?)
    ensures key in s.buckets && Step(s, e).state.buckets[key] == s.buckets[key]
    ensures ChargeIn(Step(s, e).result, key) == 0
  {
    if Fresh(s, e) {
      FreshIsCharge(s, e);
      FreshBucket(s, e);
    } else if e.payload.Carries? {
      var at, ts, p := Position(e.index, e.term), e.payload.command.timestamp, e.payload.command.body;
      PoliciesLeaveBuckets(s, at, ts, p);
      ClientsLeaveBuckets(s, at, ts, p);
    }
  }

  /** A decision writes its own bucket only. */
  lemma FreshBucket(s: AppState, e: LogEntry)
    requires StoreOk(s) && Timely(e) && Fresh(s, e)
    ensures var d, s' := Step(s, e).result.decision, Step(s, e).state;
            forall k :: k in s'.buckets && k != BucketOf(d) ==> k in s.buckets && s'.buckets[k] == s.buckets[k]
  {
    FreshIsCharge(s, e);
    var p, ts := e.payload.command.body, e.payload.command.timestamp;
    FreshVerdict(s, ts, p);
  }

  lemma PoliciesLeaveBuckets(s: AppState, at: Position, ts: Int64, p: Body)
    ensures p.CreatePolicy? ==> ApplyCreatePolicy(s, at, ts, p).state.buckets == s.buckets
    ensures p.SetPolicyActive? ==> ApplySetPolicyActive(s, at, ts, p).state.buckets == s.buckets
    ensures p.UpdatePolicy? && !ApplyUpdatePolicy(s, at, ts, p).result.PolicyChanged? ==>
              ApplyUpdatePolicy(s, at, ts, p).state.buckets == s.buckets
  {
  }

  lemma ClientsLeaveBuckets(s: AppState, at: Position, ts: Int64, p: Body)
    ensures p.CreateClient? ==> ApplyCreateClient(s, at, ts, p).state.buckets == s.buckets
    ensures p.RevokeClient? ==> ApplyRevokeClient(s, at, ts, p).state.buckets == s.buckets
  {
  }

  lemma EntryExact(s: AppState, e: LogEntry, key: Key, r: Rate)
    requires StoreOk(s) && Timely(e) && Step(s, e).Applied? && key in Step(s, e).state.buckets
    requires Governed(s, key, r) && Governed(Step(s, e).state, key, r) && key.0 in Step(s, e).state.policies
    ensures Exact(s, Step(s, e).state, ChargeIn(Step(s, e).result, key), key, r)
  {
    assert BucketOk(s.buckets, s.policies, key);
    EntryOpens(s, e, key);
    if Fresh(s, e) && BucketOf(Step(s, e).result.decision) == key {
      FreshIsCharge(s, e);
      ChargeExact(s, e, key, r);
    } else if e.payload.Carries? && e.payload.command.body.UpdatePolicy? && Step(s, e).result.PolicyChanged? {
      var at, ts, p := Position(e.index, e.term), e.payload.command.timestamp, e.payload.command.body;
      UpdateExact(s, at, ts, p, key, r);
    } else {
      OthersLeave(s, e, key);
      SameExact(s, Step(s, e).state, key, r);
    }
  }

  // ---- whole logs ----

  /** The tables after the first i entries. */
  function After(es: seq<LogEntry>, i: nat): AppState
    requires i <= |es| && Run(EMPTY_STATE, es[..i]).Some?
  {
    Run(EMPTY_STATE, es[..i]).value
  }

  lemma {:induction false} Prefixes(es: seq<LogEntry>, i: nat)
    requires i <= |es| && Run(EMPTY_STATE, es).Some?
    ensures Run(EMPTY_STATE, es[..i]).Some?
    decreases |es| - i
  {
    if i == |es| {
      assert es[..i] == es;
    } else {
      Prefixes(es, i + 1);
      assert es[..i + 1][..i] == es[..i];
    }
  }

  /** Charges to the bucket from entry i on. */
  function SpentFrom(es: seq<LogEntry>, i: nat, key: Key): int
    requires i <= |es|
  {
    Spent(EMPTY_STATE, es, key) - Spent(EMPTY_STATE, es[..i], key)
  }

  /** Entry i touched the bucket or found it there: a window may start at its time. */
  ghost predicate Starts(es: seq<LogEntry>, i: nat, key: Key) {
    i < |es| && Run(EMPTY_STATE, es[..i + 1]).Some? && key in After(es, i + 1).buckets
  }

  /** What the window that starts at entry i allows until `now`. */
  function Room(es: seq<LogEntry>, i: nat, key: Key, r: Rate, now: int): real
    requires i < |es| && Run(EMPTY_STATE, es[..i + 1]).Some?
  {
    Full(r) + Accrual(r, now - Clock(After(es, i + 1), key))
  }

  /** A log that applies, with sound timestamps, while the bucket's policy keeps rate r. */
  ghost predicate Steady(es: seq<LogEntry>, key: Key, r: Rate) {
    (forall e :: e in es ==> Timely(e)) && Run(EMPTY_STATE, es).Some? && OneRate(es, key, r)
  }

  /** The last entry of a steady log, and all before it. */
  lemma SteadyLast(es: seq<LogEntry>, key: Key, r: Rate)
    requires Steady(es, key, r) && |es| > 0
    ensures var rest, e := es[..|es| - 1], es[|es| - 1];
            && Steady(rest, key, r) && Timely(e)
            && var s := Run(EMPTY_STATE, rest).value;
            && StoreOk(s) && StoreOk(Step(s, e).state) && Step(s, e).Applied?
            && Run(EMPTY_STATE, es).value == Step(s, e).state
            && Governed(s, key, r) && Governed(Step(s, e).state, key, r)
            && Spent(EMPTY_STATE, es, key) == Spent(EMPTY_STATE, rest, key) + ChargeIn(Step(s, e).result, key)
            && (key in Step(s, e).state.buckets ==> key.0 in Step(s, e).state.policies)
  {
    var rest, e := es[..|es| - 1], es[|es| - 1];
    OneRatePrefix(es, key, r);
    assert forall x :: x in rest ==> x in es;
    assert e in es && es[..|es|] == es;
    EmptyStoreOk();
    StoreAlwaysOk(EMPTY_STATE, rest);
    StoreAlwaysOk(EMPTY_STATE, es);
    var s' := Run(EMPTY_STATE, es).value;
    assert BucketOk(s'.buckets, s'.policies, key);
  }

  /** What the window from entry i allows is what it has spent and what is left. */
  ghost predicate ExactFrom(es: seq<LogEntry>, i: nat, key: Key, r: Rate)
    requires Run(EMPTY_STATE, es).Some?
  {
    && Starts(es, i, key)
    && var s := Run(EMPTY_STATE, es).value;
    SpentFrom(es, i, key) as real + Balance(s, key) == Room(es, i, key, r, Clock(s, key))
  }

  /** Some window is exact: the one since the bucket was last full. */
  lemma {:induction false} ExactWindow(es: seq<LogEntry>, key: Key, r: Rate) returns (i: nat)
    requires Steady(es, key, r) && key in Run(EMPTY_STATE, es).value.buckets
    ensures ExactFrom(es, i, key, r)
  {
    SteadyLast(es, key, r);
    var rest, e := es[..|es| - 1], es[|es| - 1];
    var s, s' := Run(EMPTY_STATE, rest).value, Run(EMPTY_STATE, es).value;
    EntryExact(s, e, key, r);
    if ChargeIn(Step(s, e).result, key) as real + Balance(s', key) == Full(r) {
      i := |es| - 1;
      WindowOpens(es, key, r);
    } else {
      i := ExactWindow(rest, key, r);
      WindowGoesOn(es, i, key, r);
    }
  }

  lemma WindowOpens(es: seq<LogEntry>, key: Key, r: Rate)
    requires |es| > 0 && Run(EMPTY_STATE, es).Some? && key in Run(EMPTY_STATE, es).value.buckets
    requires SpentFrom(es, |es| - 1, key) as real + Balance(Run(EMPTY_STATE, es).value, key) == Full(r)
    ensures ExactFrom(es, |es| - 1, key, r)
  {
    WholeWindow(es, es[..|es|], key, r);
  }

  lemma WholeWindow(es: seq<LogEntry>, whole: seq<LogEntry>, key: Key, r: Rate)
    requires |es| > 0 && whole == es[..|es|] && Run(EMPTY_STATE, es).Some?
    ensures Run(EMPTY_STATE, whole) == Run(EMPTY_STATE, es)
    ensures Room(es, |es| - 1, key, r, Clock(Run(EMPTY_STATE, es).value, key)) == Full(r)
  {
    assert whole == es;
    assert Accrual(r, 0) == 0.0;
  }

  lemma WindowGoesOn(es: seq<LogEntry>, i: nat, key: Key, r: Rate)
    requires |es| > 0 && Run(EMPTY_STATE, es).Some? && Run(EMPTY_STATE, es[..|es| - 1]).Some?
    requires ExactFrom(es[..|es| - 1], i, key, r)
    requires var s, s' := Run(EMPTY_STATE, es[..|es| - 1]).value, Run(EMPTY_STATE, es).value;
             SpentFrom(es, |es| - 1, key) as real + Balance(s', key) == Balance(s, key) + Gain(s, s', key, r)
    ensures ExactFrom(es, i, key, r)
  {
    var rest := es[..|es| - 1];
    var s, s' := Run(EMPTY_STATE, rest).value, Run(EMPTY_STATE, es).value;
    SameStart(es, rest, i, key, r, Clock(s, key));
    RoomGrows(es, i, key, r, s, s');
  }

  lemma SameStart(es: seq<LogEntry>, rest: seq<LogEntry>, i: nat, key: Key, r: Rate, t: int)
    requires |es| > 0 && rest == es[..|es| - 1] && Starts(rest, i, key)
    ensures Starts(es, i, key) && Room(es, i, key, r, t) == Room(rest, i, key, r, t)
    ensures SpentFrom(es, i, key) == SpentFrom(rest, i, key) + SpentFrom(es, |es| - 1, key)
  {
    assert rest[..i + 1] == es[..i + 1] && rest[..i] == es[..i];
  }

  lemma RoomGrows(es: seq<LogEntry>, i: nat, key: Key, r: Rate, s: AppState, s': AppState)
    requires i < |es| && Run(EMPTY_STATE, es[..i + 1]).Some?
    ensures Room(es, i, key, r, Clock(s', key)) == Room(es, i, key, r, Clock(s, key)) + Gain(s, s', key, r)
  {
    AccrualAdds(r, Clock(s, key) - Clock(After(es, i + 1), key), Clock(s', key) - Clock(s, key));
  }

  /** The balance never exceeds the capacity. */
  lemma {:induction false} AtMostFull(es: seq<LogEntry>, key: Key, r: Rate)
    requires Steady(es, key, r)
    ensures Balance(Run(EMPTY_STATE, es).value, key) <= Full(r)
  {
    if |es| == 0 {
    } else {
      SteadyLast(es, key, r);
      var rest, e := es[..|es| - 1], es[|es| - 1];
      AtMostFull(rest, key, r);
      EntryBounded(Run(EMPTY_STATE, rest).value, e, key, r);
    }
  }

  /** Neither does the balance before the entry's own charge. */
  lemma EntryBounded(s: AppState, e: LogEntry, key: Key, r: Rate)
    requires StoreOk(s) && Timely(e) && Step(s, e).Applied? && Balance(s, key) <= Full(r)
    requires Governed(s, key, r) && Governed(Step(s, e).state, key, r)
    requires key in Step(s, e).state.buckets ==> key.0 in Step(s, e).state.policies
    ensures ChargeIn(Step(s, e).result, key) as real + Balance(Step(s, e).state, key) <= Full(r)
  {
    if key in Step(s, e).state.buckets {
      EntryExact(s, e, key, r);
    } else {
      NoCharge(s, e, key);
    }
  }

  lemma NoCharge(s: AppState, e: LogEntry, key: Key)
    requires StoreOk(s) && Timely(e) && Step(s, e).Applied? && key !in Step(s, e).state.buckets
    ensures ChargeIn(Step(s, e).result, key) == 0
  {
    if Fresh(s, e) {
      FreshIsCharge(s, e);
      FreshVerdict(s, e.payload.command.timestamp, e.payload.command.body);
    }
  }

  // ---- the verdict ----

  /** No window has more to spend from than it allows. */
  ghost predicate Within(es: seq<LogEntry>, i: nat, key: Key, r: Rate)
    requires Run(EMPTY_STATE, es).Some?
  {
    && Starts(es, i, key) && key in Run(EMPTY_STATE, es).value.buckets
    && var s := Run(EMPTY_STATE, es).value;
    SpentFrom(es, i, key) as real + Balance(s, key) <= Room(es, i, key, r, Clock(s, key))
  }

  lemma WithinOpens(es: seq<LogEntry>, key: Key, r: Rate)
    requires Steady(es, key, r) && |es| > 0 && Starts(es, |es| - 1, key)
    ensures Within(es, |es| - 1, key, r)
  {
    SteadyLast(es, key, r);
    var rest, e := es[..|es| - 1], es[|es| - 1];
    AtMostFull(rest, key, r);
    EntryBounded(Run(EMPTY_STATE, rest).value, e, key, r);
    WholeWindow(es, es[..|es|], key, r);
  }

  lemma WithinGoesOn(es: seq<LogEntry>, i: nat, key: Key, r: Rate)
    requires |es| > 0 && Run(EMPTY_STATE, es).Some? && Run(EMPTY_STATE, es[..|es| - 1]).Some?
    requires Within(es[..|es| - 1], i, key, r) && key in Run(EMPTY_STATE, es).value.buckets
    requires var s, s' := Run(EMPTY_STATE, es[..|es| - 1]).value, Run(EMPTY_STATE, es).value;
             SpentFrom(es, |es| - 1, key) as real + Balance(s', key) <= Balance(s, key) + Gain(s, s', key, r)
    ensures Within(es, i, key, r)
  {
    var rest := es[..|es| - 1];
    var s, s' := Run(EMPTY_STATE, rest).value, Run(EMPTY_STATE, es).value;
    SameStart(es, rest, i, key, r, Clock(s, key));
    RoomGrows(es, i, key, r, s, s');
  }

  lemma EntryGains(s: AppState, e: LogEntry, key: Key, r: Rate)
    requires StoreOk(s) && Timely(e) && Step(s, e).Applied? && key in s.buckets && Governed(s, key, r)
    ensures key in Step(s, e).state.buckets
    ensures ChargeIn(Step(s, e).result, key) as real + Balance(Step(s, e).state, key)
            <= Balance(s, key) + Gain(s, Step(s, e).state, key, r)
  {
    assert BucketOk(s.buckets, s.policies, key);
    EntryOpens(s, e, key);
    EntryBalances(s, e, key);
  }

  lemma {:induction false} EveryWindow(es: seq<LogEntry>, i: nat, key: Key, r: Rate)
    requires Steady(es, key, r) && Starts(es, i, key)
    ensures Within(es, i, key, r)
  {
    if i == |es| - 1 {
      WithinOpens(es, key, r);
    } else {
      SteadyLast(es, key, r);
      var rest, e := es[..|es| - 1], es[|es| - 1];
      assert rest[..i + 1] == es[..i + 1];
      EveryWindow(rest, i, key, r);
      EntryGains(Run(EMPTY_STATE, rest).value, e, key, r);
      WithinGoesOn(es, i, key, r);
    }
  }

  /** What is there to spend when the request comes, and whether it is enough. */
  lemma Enough(b: Bucket, r: Rate, ts: Int64, cost: Int64)
    requires InRange(b, r) && 1 <= cost <= r.maxCost
    ensures var has := Worth(b, r) + Accrual(r, Max(ts, b.lastRefill) - b.lastRefill);
            if Spend(Refill(b, r, ts), cost, r).allowed then (cost * MILLI) as real <= has
            else has < (cost * MILLI) as real
  {
    RefillIsExact(b, r, ts);
    RefillConserves(b, r, ts);
    RefillExactly(b, r, ts);
    FractionSmall(Refill(b, r, ts), r);
    SpendIsExact(Refill(b, r, ts), cost, r);
  }

  /** The time at which a request finds the bucket. */
  function Arrival(s: AppState, e: LogEntry, key: Key): int
    requires e.payload.Carries?
  {
    Max(e.payload.command.timestamp, Clock(s, key))
  }

  /** What the bucket holds at a later time, before any clamp. */
  function Holds(s: AppState, key: Key, r: Rate, now: int): real {
    Balance(s, key) + Accrual(r, now - Clock(s, key))
  }

  /** With this cost, the window from entry i stays within one capacity and its refill. */
  ghost predicate Affords(es: seq<LogEntry>, i: nat, key: Key, r: Rate, cost: int, now: int)
    requires Starts(es, i, key)
  {
    (SpentFrom(es, i, key) + cost * MILLI) as real <= Room(es, i, key, r, now)
  }

  lemma RequestWeighs(s: AppState, e: LogEntry, key: Key, r: Rate)
    requires StoreOk(s) && Timely(e) && Fresh(s, e) && BucketOf(Step(s, e).result.decision) == key
    requires key.0 in s.policies ==> s.policies[key.0].rate == r
    ensures e.payload.Carries?
    ensures var d := Step(s, e).result.decision;
            if key !in s.buckets then d.allowed
            else
              var has := Holds(s, key, r, Arrival(s, e, key));
              if d.allowed then (d.cost * MILLI) as real <= has else has < (d.cost * MILLI) as real
  {
    FreshIsCharge(s, e);
    if key in s.buckets {
      var p, ts := e.payload.command.body, e.payload.command.timestamp;
      assert PolicyOk(s.policies, p.policyId) && BucketOk(s.buckets, s.policies, key);
      Enough(s.buckets[key], r, ts, p.cost);
    } else {
      FirstDecision(s, e);
    }
  }

  /** A window that is exact, or within its room, stays so while time passes. */
  lemma RoomAt(es: seq<LogEntry>, i: nat, key: Key, r: Rate, s: AppState, now: int)
    requires i < |es| && Run(EMPTY_STATE, es[..i + 1]).Some?
    ensures Room(es, i, key, r, now) - Holds(s, key, r, now) == Room(es, i, key, r, Clock(s, key)) - Balance(s, key)
  {
    AccrualAdds(r, Clock(s, key) - Clock(After(es, i + 1), key), now - Clock(s, key));
  }

  lemma FitsWindow(es: seq<LogEntry>, i: nat, key: Key, r: Rate, cost: int, now: int)
    requires Run(EMPTY_STATE, es).Some? && Within(es, i, key, r)
    requires (cost * MILLI) as real <= Holds(Run(EMPTY_STATE, es).value, key, r, now)
    ensures Affords(es, i, key, r, cost, now)
  {
    RoomAt(es, i, key, r, Run(EMPTY_STATE, es).value, now);
  }

  lemma ExceedsWindow(es: seq<LogEntry>, i: nat, key: Key, r: Rate, cost: int, now: int)
    requires Run(EMPTY_STATE, es).Some? && ExactFrom(es, i, key, r)
    requires Holds(Run(EMPTY_STATE, es).value, key, r, now) < (cost * MILLI) as real
    ensures !Affords(es, i, key, r, cost, now)
  {
    RoomAt(es, i, key, r, Run(EMPTY_STATE, es).value, now);
  }

  lemma SteadyEnd(es: seq<LogEntry>, key: Key, r: Rate)
    requires Steady(es, key, r)
    ensures StoreOk(Run(EMPTY_STATE, es).value) && Governed(Run(EMPTY_STATE, es).value, key, r)
  {
    EmptyStoreOk();
    StoreAlwaysOk(EMPTY_STATE, es);
    if |es| > 0 { SteadyLast(es, key, r); }
  }

  /** While a policy keeps its rate, a fresh request is allowed exactly when, with its
      cost, every window of the bucket's history stays within one capacity and the refill
      of that window.  It is denied only when some window has really been used up. */
  lemma AllowedExactly(es: seq<LogEntry>, e: LogEntry, key: Key, r: Rate)
    requires Steady(es, key, r) && Timely(e) && Fresh(Run(EMPTY_STATE, es).value, e)
    requires BucketOf(Step(Run(EMPTY_STATE, es).value, e).result.decision) == key
    ensures e.payload.Carries?
    ensures var s := Run(EMPTY_STATE, es).value;
            var d := Step(s, e).result.decision;
            d.allowed <==>
            forall i {:trigger Starts(es, i, key)} ::
              Starts(es, i, key) ==> Affords(es, i, key, r, d.cost, Arrival(s, e, key))
  {
    var s := Run(EMPTY_STATE, es).value;
    var d := Step(s, e).result.decision;
    SteadyEnd(es, key, r);
    RequestWeighs(s, e, key, r);
    var now := Arrival(s, e, key);
    if d.allowed {
      forall i | Starts(es, i, key) ensures Affords(es, i, key, r, d.cost, now) {
        EveryWindow(es, i, key, r);
        FitsWindow(es, i, key, r, d.cost, now);
      }
    } else {
      var i := ExactWindow(es, key, r);
      ExceedsWindow(es, i, key, r, d.cost, now);
    }
  }
}
