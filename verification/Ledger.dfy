/**
  The conservation ledger.  For every log and every bucket, what has been spent
  plus what is left, fraction included, never exceeds the starting capacity plus
  each policy rate integrated over the bucket time it was in force.
 */
module Ledger {
  import opened Models
  import opened Int64Math
  import opened TokenBucket
  import opened BucketLaws
  import opened StateMachine
  import opened StoreInvariant

  type Key = (Str, Str)  // policy id, subject

  /** Milli-tokens that an applied entry charges to a bucket: fresh allowed decisions only. */
  function ChargeIn(result: Result, key: Key): int {
    if result.Decided? && !result.duplicate && result.decision.allowed
       && (result.decision.policyId, result.decision.subject) == key
    then result.decision.cost * MILLI else 0
  }

  /** Credit granted by one transition: the full capacity when the bucket is opened,
      otherwise the accrual of the bucket time that passed, at the rate in force before. */
  function GrantIn(s: AppState, s': AppState, key: Key): real {
    if key !in s'.buckets || key.0 !in s.policies then 0.0
    else if key in s.buckets then
      Accrual(s.policies[key.0].rate, s'.buckets[key].lastRefill - s.buckets[key].lastRefill)
    else (s.policies[key.0].rate.capacity * MILLI) as real
  }

  /** What a bucket is worth now, in milli-tokens; a bucket not yet opened is worth nothing. */
  function Balance(s: AppState, key: Key): real {
    if key in s.buckets && key.0 in s.policies then Worth(s.buckets[key], s.policies[key.0].rate) else 0.0
  }

  function Spent(s: AppState, es: seq<LogEntry>, key: Key): int {
    if |es| == 0 then 0
    else
      var rest, e := es[..|es| - 1], es[|es| - 1];
      match Run(s, rest)
      case None => Spent(s, rest, key)
      case Some(t) =>
        match ApplyEntry(t, e.index, e.term, e)
        case Applied(_, result) => Spent(s, rest, key) + ChargeIn(result, key)
        case Failed => Spent(s, rest, key)
  }

  function Granted(s: AppState, es: seq<LogEntry>, key: Key): real {
    if |es| == 0 then 0.0
    else
      var rest, e := es[..|es| - 1], es[|es| - 1];
      match Run(s, rest)
      case None => Granted(s, rest, key)
      case Some(t) =>
        match ApplyEntry(t, e.index, e.term, e)
        case Applied(u, _) => Granted(s, rest, key) + GrantIn(t, u, key)
        case Failed => Granted(s, rest, key)
  }

  // ---- one transition ----

  /** A transition balances: charges plus the new balance fit the old balance plus the grant. */
  ghost predicate Balances(s: AppState, s': AppState, charge: int, key: Key) {
    charge as real + Balance(s', key) <= Balance(s, key) + GrantIn(s, s', key)
  }

  lemma Untouched(s: AppState, s': AppState, key: Key)
    requires key in s'.buckets <==> key in s.buckets
    requires key in s.buckets ==> s'.buckets[key] == s.buckets[key] && key.0 in s.policies && key.0 in s'.policies
                                  && s'.policies[key.0].rate == s.policies[key.0].rate
    ensures Balances(s, s', 0, key)
  {
    if key in s.buckets { assert Accrual(s.policies[key.0].rate, 0) == 0.0; }
  }

  lemma WorthOfSpent(b: Bucket, r: Rate, tokens: Int64)
    requires tokens <= b.tokens
    ensures Worth(b.(tokens := tokens), r) == Worth(b, r) - (b.tokens - tokens) as real
  {
  }

  /** Refill and spend on one bucket. */
  lemma ChargeBalances(b: Bucket, r: Rate, ts: Int64, cost: Int64)
    requires InRange(b, r) && 1 <= cost <= r.maxCost
    ensures var spent := Spend(Refill(b, r, ts), cost, r);
            && spent.bucket.lastRefill >= b.lastRefill
            && (if spent.allowed then cost * MILLI else 0) as real + Worth(spent.bucket, r)
               <= Worth(b, r) + Accrual(r, spent.bucket.lastRefill - b.lastRefill)
  {
    var after := Refill(b, r, ts);
    RefillConserves(b, r, ts);
    RefillIsExact(b, r, ts);
    SpendIsExact(after, cost, r);
    if after.tokens >= cost * MILLI { WorthOfSpent(after, r, after.tokens - cost * MILLI); }
  }

  /** A first-seen subject: the bucket opens full, and is charged from that. */
  lemma OpeningBalances(b: Bucket, r: Rate, ts: Int64, cost: Int64)
    requires InRange(b, r) && 1 <= cost <= r.maxCost && b.lastRefill == ts && b.tokens == r.capacity * MILLI
    requires b.remainder == 0
    ensures var spent := Spend(Refill(b, r, ts), cost, r);
            && spent.allowed && spent.bucket.lastRefill == ts
            && (cost * MILLI) as real + Worth(spent.bucket, r) <= (r.capacity * MILLI) as real
  {
    ChargeBalances(b, r, ts, cost);
    RefillIsExact(b, r, ts);
    CreditNonNegative(b, r, 0);
    SpendIsExact(Refill(b, r, ts), cost, r);
    assert Accrual(r, 0) == 0.0;
  }

  lemma DecideBalances(s: AppState, at: Position, ts: Int64, p: Body, key: Key)
    requires StoreOk(s) && p.Decide? && RequestOk(p) && Refusal(s, p).None? && ts >= 0
    ensures var a := Charge(s, at, ts, p); Balances(s, a.state, ChargeIn(a.result, key), key)
  {
    var a, policy := Charge(s, at, ts, p), s.policies[p.policyId];
    var r := policy.rate;
    assert PolicyOk(s.policies, p.policyId);
    LoadedInRange(s, policy, p.subject, ts);
    var b := LoadBucket(s, policy, p.subject, ts);
    if key == (p.policyId, p.subject) {
      if key in s.buckets {
        ChargeBalances(b, r, ts, p.cost);
      } else {
        WrapFits(r.capacity * MILLI);
        OpeningBalances(b, r, ts, p.cost);
      }
    } else {
      assert BucketOk(s.buckets, s.policies, key);
      RefillIsExact(b, r, ts);
      SpendIsExact(Refill(b, r, ts), p.cost, r);
      Untouched(s, a.state, key);
    }
  }

  /** A policy update grants only what the old rate earned up to the update. */
  lemma ConvertBalances(b: Bucket, before: Rate, after: Rate, ts: Int64, version: nat)
    requires InRange(b, before)
    ensures var c := Convert(b, before, after, ts, version);
            && c.lastRefill >= b.lastRefill
            && Worth(c, after) <= Worth(b, before) + Accrual(before, c.lastRefill - b.lastRefill)
  {
    RefillConserves(b, before, ts);
    RefillIsExact(b, before, ts);
    WrapFits(after.capacity * MILLI);
    WorthNonNegative(Refill(b, before, ts), before);
  }

  lemma UpdatedBalances(s: AppState, s': AppState, id: Str, policy: Policy, ts: Int64, key: Key)
    requires BucketOk(s.buckets, s.policies, key) && id in s.policies
    requires s'.buckets == ConvertAll(s.buckets, id, s.policies[id].rate, policy.rate, ts, policy.version)
    requires s'.policies == s.policies[id := policy]
    ensures Balances(s, s', 0, key)
  {
    if key.0 == id && key in s.buckets {
      ConvertBalances(s.buckets[key], s.policies[id].rate, policy.rate, ts, policy.version);
    } else {
      Untouched(s, s', key);
    }
  }

  lemma UpdateBalances(s: AppState, at: Position, ts: Int64, p: Body, key: Key)
    requires StoreOk(s) && p.UpdatePolicy?
    ensures Balances(s, ApplyUpdatePolicy(s, at, ts, p).state, 0, key)
  {
    var a := ApplyUpdatePolicy(s, at, ts, p);
    assert BucketOk(s.buckets, s.policies, key);
    assert PolicyOk(s.policies, p.id);
    if a.result.PolicyChanged? {
      UpdatedBalances(s, a.state, p.id, a.result.policy, ts, key);
    } else {
      Untouched(s, s, key);
    }
  }

  lemma PolicyBalances(s: AppState, at: Position, ts: Int64, p: Body, key: Key)
    requires StoreOk(s)
    ensures p.CreatePolicy? ==> Balances(s, ApplyCreatePolicy(s, at, ts, p).state, 0, key)
    ensures p.SetPolicyActive? ==> Balances(s, ApplySetPolicyActive(s, at, ts, p).state, 0, key)
  {
    assert BucketOk(s.buckets, s.policies, key);
    if p.CreatePolicy? {
      Untouched(s, ApplyCreatePolicy(s, at, ts, p).state, key);
    } else if p.SetPolicyActive? {
      assert PolicyOk(s.policies, p.id);
      Untouched(s, ApplySetPolicyActive(s, at, ts, p).state, key);
    }
  }

  lemma ClientBalances(s: AppState, at: Position, ts: Int64, p: Body, key: Key)
    requires StoreOk(s)
    ensures p.CreateClient? ==> Balances(s, ApplyCreateClient(s, at, ts, p).state, 0, key)
    ensures p.RevokeClient? ==> Balances(s, ApplyRevokeClient(s, at, ts, p).state, 0, key)
    ensures p.Prune? ==> Balances(s, ApplyPrune(s, ts, p).state, 0, key)
  {
    assert BucketOk(s.buckets, s.policies, key);
    if p.CreateClient? {
      Untouched(s, ApplyCreateClient(s, at, ts, p).state, key);
    } else if p.RevokeClient? {
      Untouched(s, ApplyRevokeClient(s, at, ts, p).state, key);
    } else if p.Prune? {
      Untouched(s, ApplyPrune(s, ts, p).state, key);
    }
  }

  lemma RequestBalances(s: AppState, at: Position, ts: Int64, p: Body, key: Key)
    requires StoreOk(s) && ts >= 0 && p.Decide? && ApplyDecide(s, at, ts, p).Applied?
    ensures var a := ApplyDecide(s, at, ts, p); Balances(s, a.state, ChargeIn(a.result, key), key)
  {
    if RequestOk(p) && (p.clientId, p.requestId) !in s.decisions && Refusal(s, p).None? {
      DecideBalances(s, at, ts, p, key);
    } else {
      assert BucketOk(s.buckets, s.policies, key);
      Untouched(s, s, key);
    }
  }

  /** No other command charges a bucket. */
  lemma AdminBalances(s: AppState, at: Position, cmd: Command, key: Key)
    requires StoreOk(s) && !cmd.body.Decide? && ApplyCommand(s, at, cmd).Applied?
    ensures var a := ApplyCommand(s, at, cmd); !a.result.Decided? && Balances(s, a.state, 0, key)
  {
    var ts, p := cmd.timestamp, cmd.body;
    match p
    case CreatePolicy(_, _, _, _, _, _, _) => PolicyBalances(s, at, ts, p, key);
    case SetPolicyActive(_, _, _) => PolicyBalances(s, at, ts, p, key);
    case UpdatePolicy(_, _, _, _, _, _, _) => UpdateBalances(s, at, ts, p, key);
    case CreateClient(_, _, _, _, _) => ClientBalances(s, at, ts, p, key);
    case RevokeClient(_) => ClientBalances(s, at, ts, p, key);
    case Prune(_) => ClientBalances(s, at, ts, p, key);
  }

  lemma CommandBalances(s: AppState, at: Position, cmd: Command, key: Key)
    requires StoreOk(s) && cmd.timestamp >= 0 && ApplyCommand(s, at, cmd).Applied?
    ensures var a := ApplyCommand(s, at, cmd); Balances(s, a.state, ChargeIn(a.result, key), key)
  {
    if cmd.body.Decide? {
      RequestBalances(s, at, cmd.timestamp, cmd.body, key);
    } else {
      AdminBalances(s, at, cmd, key);
    }
  }

  lemma EntryBalances(s: AppState, e: LogEntry, key: Key)
    requires StoreOk(s) && Timely(e) && ApplyEntry(s, e.index, e.term, e).Applied?
    ensures var a := ApplyEntry(s, e.index, e.term, e); Balances(s, a.state, ChargeIn(a.result, key), key)
  {
    if e.payload.Carries? {
      CommandBalances(s, Position(e.index, e.term), e.payload.command, key);
    } else {
      assert BucketOk(s.buckets, s.policies, key);
      Untouched(s, s, key);
    }
  }

  // ---- every log ----

  /** Conservation: spending plus what is left never exceeds what was there plus
      what the policies in force granted, segment by segment. */
  lemma {:induction false} Conservation(s: AppState, es: seq<LogEntry>, key: Key)
    requires StoreOk(s) && (forall e :: e in es ==> Timely(e)) && Run(s, es).Some?
    ensures Spent(s, es, key) as real + Balance(Run(s, es).value, key) <= Balance(s, key) + Granted(s, es, key)
  {
    if |es| == 0 {
    } else {
      var rest, e := es[..|es| - 1], es[|es| - 1];
      Conservation(s, rest, key);
      StoreAlwaysOk(s, rest);
      assert e in es;
      EntryBalances(Run(s, rest).value, e, key);
    }
  }

  lemma BalanceNonNegative(s: AppState, key: Key)
    requires StoreOk(s)
    ensures Balance(s, key) >= 0.0
  {
    assert BucketOk(s.buckets, s.policies, key);
    if key in s.buckets { WorthNonNegative(s.buckets[key], s.policies[key.0].rate); }
  }

  /** No log, started from an empty store, charges a bucket more than it was granted. */
  lemma Budget(es: seq<LogEntry>, key: Key)
    requires (forall e :: e in es ==> Timely(e)) && Run(EMPTY_STATE, es).Some?
    ensures Spent(EMPTY_STATE, es, key) as real <= Granted(EMPTY_STATE, es, key)
  {
    EmptyStoreOk();
    Conservation(EMPTY_STATE, es, key);
    StoreAlwaysOk(EMPTY_STATE, es);
    BalanceNonNegative(Run(EMPTY_STATE, es).value, key);
  }

  // ---- a policy whose rate does not change ----

  /** When the bucket was opened: the time of its first decision. */
  function OpenedAt(es: seq<LogEntry>, key: Key): int {
    if |es| == 0 then 0
    else
      var rest := es[..|es| - 1];
      match (Run(EMPTY_STATE, rest), Run(EMPTY_STATE, es))
      case (Some(t), Some(u)) =>
        if key in u.buckets && key !in t.buckets then u.buckets[key].lastRefill else OpenedAt(rest, key)
      case _ => OpenedAt(rest, key)
  }

  /** In state s, a bucket under `key` is governed by rate r, and so is a policy about to open one. */
  ghost predicate Governed(s: AppState, key: Key, r: Rate) {
    key.0 in s.policies ==> s.policies[key.0].rate == r
  }

  lemma AccrualAdds(r: Rate, a: int, b: int)
    ensures Accrual(r, a) + Accrual(r, b) == Accrual(r, a + b)
  {
    assert (a + b) * r.refill * MILLI == a * r.refill * MILLI + b * r.refill * MILLI by {
      assert (a + b) * r.refill == a * r.refill + b * r.refill;
    }
    RealQuotientAdds(a * r.refill * MILLI, b * r.refill * MILLI, r.interval);
  }

  /** Buckets are never removed, and only policies that exist open them. */
  ghost predicate Opens(s: AppState, s': AppState, key: Key) {
    && (key in s.buckets ==> key in s'.buckets)
    && (key in s'.buckets && key !in s.buckets ==> key.0 in s.policies)
  }

  lemma DecideOpens(s: AppState, at: Position, ts: Int64, p: Body, key: Key)
    requires StoreOk(s) && ts >= 0 && p.Decide? && ApplyDecide(s, at, ts, p).Applied?
    ensures Opens(s, ApplyDecide(s, at, ts, p).state, key)
  {
    if RequestOk(p) && (p.clientId, p.requestId) !in s.decisions && Refusal(s, p).None? {
      var policy := s.policies[p.policyId];
      assert PolicyOk(s.policies, p.policyId);
      LoadedInRange(s, policy, p.subject, ts);
      var b := LoadBucket(s, policy, p.subject, ts);
      RefillIsExact(b, policy.rate, ts);
      SpendIsExact(Refill(b, policy.rate, ts), p.cost, policy.rate);
    }
  }

  lemma PolicyOpens(s: AppState, at: Position, ts: Int64, p: Body, key: Key)
    ensures p.CreatePolicy? ==> Opens(s, ApplyCreatePolicy(s, at, ts, p).state, key)
    ensures p.UpdatePolicy? ==> Opens(s, ApplyUpdatePolicy(s, at, ts, p).state, key)
    ensures p.SetPolicyActive? ==> Opens(s, ApplySetPolicyActive(s, at, ts, p).state, key)
  {
  }

  lemma ClientOpens(s: AppState, at: Position, ts: Int64, p: Body, key: Key)
    ensures p.CreateClient? ==> Opens(s, ApplyCreateClient(s, at, ts, p).state, key)
    ensures p.RevokeClient? ==> Opens(s, ApplyRevokeClient(s, at, ts, p).state, key)
    ensures p.Prune? ==> Opens(s, ApplyPrune(s, ts, p).state, key)
  {
  }

  lemma EntryOpens(s: AppState, e: LogEntry, key: Key)
    requires StoreOk(s) && Timely(e) && ApplyEntry(s, e.index, e.term, e).Applied?
    ensures Opens(s, ApplyEntry(s, e.index, e.term, e).state, key)
  {
    if e.payload.Carries? {
      var at, ts, p := Position(e.index, e.term), e.payload.command.timestamp, e.payload.command.body;
      if p.Decide? {
        DecideOpens(s, at, ts, p, key);
      } else {
        PolicyOpens(s, at, ts, p, key);
        ClientOpens(s, at, ts, p, key);
      }
    }
  }

  /** What a bucket opened at `since` has been granted at rate r by now. */
  function GrantBy(s: AppState, key: Key, r: Rate, since: int): real {
    if key in s.buckets then (r.capacity * MILLI) as real + Accrual(r, s.buckets[key].lastRefill - since) else 0.0
  }

  lemma GrantByStep(s: AppState, s': AppState, key: Key, r: Rate, since: int)
    requires Governed(s, key, r) && Opens(s, s', key) && (key in s.buckets ==> key.0 in s.policies)
    ensures GrantBy(s, key, r, since) + GrantIn(s, s', key)
            == GrantBy(s', key, r, if key in s'.buckets && key !in s.buckets then s'.buckets[key].lastRefill else since)
  {
    if key in s.buckets {
      AccrualAdds(r, s.buckets[key].lastRefill - since, s'.buckets[key].lastRefill - s.buckets[key].lastRefill);
    } else {
      assert Accrual(r, 0) == 0.0;
    }
  }

  /** Throughout the log, the bucket's policy keeps rate r. */
  ghost predicate OneRate(es: seq<LogEntry>, key: Key, r: Rate) {
    forall i :: 0 <= i <= |es| && Run(EMPTY_STATE, es[..i]).Some? ==> Governed(Run(EMPTY_STATE, es[..i]).value, key, r)
  }

  lemma OneRatePrefix(es: seq<LogEntry>, key: Key, r: Rate)
    requires |es| > 0 && OneRate(es, key, r)
    ensures OneRate(es[..|es| - 1], key, r)
    ensures Run(EMPTY_STATE, es[..|es| - 1]).Some? ==> Governed(Run(EMPTY_STATE, es[..|es| - 1]).value, key, r)
  {
    var rest := es[..|es| - 1];
    forall i | 0 <= i <= |rest| && Run(EMPTY_STATE, rest[..i]).Some?
      ensures Governed(Run(EMPTY_STATE, rest[..i]).value, key, r)
    {
      assert rest[..i] == es[..i];
    }
  }

  /** The grant under an unchanging rate: one capacity, plus the rate times the
      bucket time since opening. */
  lemma {:induction false} GrantedAtOneRate(es: seq<LogEntry>, key: Key, r: Rate)
    requires (forall e :: e in es ==> Timely(e)) && Run(EMPTY_STATE, es).Some? && OneRate(es, key, r)
    ensures Granted(EMPTY_STATE, es, key) == GrantBy(Run(EMPTY_STATE, es).value, key, r, OpenedAt(es, key))
  {
    if |es| == 0 {
    } else {
      var rest, e := es[..|es| - 1], es[|es| - 1];
      OneRatePrefix(es, key, r);
      GrantedAtOneRate(rest, key, r);
      EmptyStoreOk();
      StoreAlwaysOk(EMPTY_STATE, rest);
      var t, s := Run(EMPTY_STATE, rest).value, Run(EMPTY_STATE, es).value;
      assert e in es;
      EntryOpens(t, e, key);
      assert BucketOk(t.buckets, t.policies, key);
      GrantByStep(t, s, key, r, OpenedAt(rest, key));
    }
  }

  /** The headline budget: under an unchanging rate, everything ever allowed on a
      bucket costs at most its capacity plus the refill of its elapsed time. */
  lemma BudgetAtOneRate(es: seq<LogEntry>, key: Key, r: Rate)
    requires (forall e :: e in es ==> Timely(e)) && Run(EMPTY_STATE, es).Some? && OneRate(es, key, r)
    ensures Spent(EMPTY_STATE, es, key) as real <= GrantBy(Run(EMPTY_STATE, es).value, key, r, OpenedAt(es, key))
  {
    Budget(es, key);
    GrantedAtOneRate(es, key, r);
  }
}
