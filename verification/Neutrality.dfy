/**
  Entries that change no later answer.  A denied decision only moves its bucket's clock,
  and so does an update that keeps a policy's rate; a log in which one of them is replaced
  by a no-op answers every later request alike: same verdicts, balances and retry
  estimates.

  The proof is a simulation between the run with the entry and the run without.
 */
module Neutrality {
  import opened Models
  import opened Int64Math
  import opened TokenBucket
  import opened BucketLaws
  import opened StateMachine
  import opened StoreInvariant
  import opened Idempotency

  // ---- buckets ----

  predicate SameCore(a: Bucket, b: Bucket) {
    a.policyId == b.policyId && a.subject == b.subject
    && a.tokens == b.tokens && a.remainder == b.remainder && a.lastRefill == b.lastRefill
  }

  /** Two buckets that cannot be told apart from time ts on: equal, or one is the other refilled. */
  ghost predicate Alike(a: Bucket, b: Bucket, r: Rate, ts: Int64) {
    SameCore(a, b) || SameCore(a, Refill(b, r, ts))
  }

  lemma RefillCore(a: Bucket, b: Bucket, r: Rate, t: Int64)
    requires SameCore(a, b)
    ensures SameCore(Refill(a, r, t), Refill(b, r, t))
  {
  }

  lemma SpendCore(a: Bucket, b: Bucket, cost: Int64, r: Rate)
    requires SameCore(a, b)
    ensures var x, y := Spend(a, cost, r), Spend(b, cost, r);
            SameCore(x.bucket, y.bucket) && x.allowed == y.allowed && x.retryAfter == y.retryAfter
  {
  }

  lemma AlikeRefill(a: Bucket, b: Bucket, r: Rate, ts: Int64, t: Int64)
    requires InRange(b, r) && Alike(a, b, r, ts) && t >= ts
    ensures SameCore(Refill(a, r, t), Refill(b, r, t))
  {
    if SameCore(a, b) {
      RefillCore(a, b, r, t);
    } else {
      RefillCore(a, Refill(b, r, ts), r, t);
      RefillSplits(b, r, ts, t);
    }
  }

  // ---- states ----

  /** What two runs may differ in: bucket clocks up to a time, the records of some requests,
      and the name, version and dates of some policies. */
  datatype Scope = Scope(ts: Int64, requests: set<RequestKey>, policies: set<Str>)

  ghost predicate SimBucket(a: AppState, b: AppState, z: Scope, k: (Str, Str)) {
    && (k in a.buckets <==> k in b.buckets)
    && (k in a.buckets ==> k.0 in a.policies && Alike(a.buckets[k], b.buckets[k], a.policies[k.0].rate, z.ts))
  }

  ghost predicate SimRecord(a: AppState, b: AppState, z: Scope, k: RequestKey) {
    k !in z.requests ==>
      (k in a.decisions <==> k in b.decisions) && (k in a.decisions ==> a.decisions[k] == b.decisions[k])
  }

  ghost predicate SimPolicy(a: AppState, b: AppState, z: Scope, id: Str) {
    && (id in a.policies <==> id in b.policies)
    && (id in a.policies ==>
          var p, q := a.policies[id], b.policies[id];
          if id in z.policies then p.id == q.id && p.rate == q.rate && p.active == q.active else p == q)
  }

  ghost predicate SameClients(a: AppState, b: AppState) { a.clients == b.clients && a.prefixes == b.prefixes }

  ghost predicate SamePolicies(a: AppState, b: AppState, z: Scope) {
    && SameClients(a, b)
    && (forall id {:trigger SimPolicy(a, b, z, id)} :: SimPolicy(a, b, z, id))
  }

  /** State a, of the run with the entry, looks like state b, of the run without it. */
  ghost predicate Sim(a: AppState, b: AppState, z: Scope) {
    && SamePolicies(a, b, z)
    && (forall k {:trigger SimBucket(a, b, z, k)} :: SimBucket(a, b, z, k))
    && (forall k {:trigger SimRecord(a, b, z, k)} :: SimRecord(a, b, z, k))
  }

  ghost predicate SameRest(a: AppState, a': AppState) {
    a'.buckets == a.buckets && a'.decisions == a.decisions
  }

  lemma SimClients(a: AppState, b: AppState, a': AppState, b': AppState, z: Scope)
    requires Sim(a, b, z) && SameRest(a, a') && SameRest(b, b') && SameClients(a', b')
    requires a'.policies == a.policies && b'.policies == b.policies
    ensures Sim(a', b', z)
  {
    forall id ensures SimPolicy(a', b', z, id) { assert SimPolicy(a, b, z, id); }
    forall k ensures SimBucket(a', b', z, k) { assert SimBucket(a, b, z, k); }
    forall k ensures SimRecord(a', b', z, k) { assert SimRecord(a, b, z, k); }
  }

  /** A new policy, or a new version at the same rate, keeps the simulation. */
  lemma SimNewPolicy(a: AppState, b: AppState, a': AppState, b': AppState, z: Scope, policy: Policy)
    requires Sim(a, b, z) && SameRest(a, a') && SameRest(b, b') && SameClients(a', b')
    requires a'.policies == a.policies[policy.id := policy] && b'.policies == b.policies[policy.id := policy]
    requires policy.id in a.policies ==> policy.rate == a.policies[policy.id].rate
    ensures Sim(a', b', z)
  {
    forall id ensures SimPolicy(a', b', z, id) { assert SimPolicy(a, b, z, id); }
    forall k ensures SimBucket(a', b', z, k) { assert SimBucket(a, b, z, k); }
    forall k ensures SimRecord(a', b', z, k) { assert SimRecord(a, b, z, k); }
  }

  // ---- one command ----

  /** Two outcomes that a caller cannot tell apart, leaving similar states. */
  ghost predicate SimApplied(x: Applied, y: Applied, z: Scope) {
    && x.Applied? == y.Applied?
    && (x.Applied? ==> x.result == y.result && Sim(x.state, y.state, z))
  }

  lemma SimCreatePolicy(a: AppState, b: AppState, z: Scope, at: Position, now: Int64, p: Body)
    requires Sim(a, b, z) && p.CreatePolicy?
    ensures SimApplied(ApplyCreatePolicy(a, at, now, p), ApplyCreatePolicy(b, at, now, p), z)
  {
    var x, y := ApplyCreatePolicy(a, at, now, p), ApplyCreatePolicy(b, at, now, p);
    assert SimPolicy(a, b, z, p.id);
    if x.result.PolicyChanged? { SimNewPolicy(a, b, x.state, y.state, z, x.result.policy); }
  }

  lemma SimSetActive(a: AppState, b: AppState, z: Scope, at: Position, now: Int64, p: Body)
    requires Sim(a, b, z) && PoliciesOk(a.policies) && p.SetPolicyActive? && p.id !in z.policies
    ensures SimApplied(ApplySetPolicyActive(a, at, now, p), ApplySetPolicyActive(b, at, now, p), z)
  {
    var x, y := ApplySetPolicyActive(a, at, now, p), ApplySetPolicyActive(b, at, now, p);
    assert PolicyOk(a.policies, p.id) && SimPolicy(a, b, z, p.id);
    if x.result.PolicyChanged? { SimNewPolicy(a, b, x.state, y.state, z, x.result.policy); }
  }

  lemma SameClientRefusal(a: AppState, b: AppState, z: Scope, p: Body)
    requires SamePolicies(a, b, z) && p.CreateClient?
    ensures ClientRefusal(a, p) == ClientRefusal(b, p)
  {
    forall id ensures id in a.policies <==> id in b.policies { assert SimPolicy(a, b, z, id); }
  }

  lemma SimCreateClient(a: AppState, b: AppState, z: Scope, at: Position, now: Int64, p: Body)
    requires Sim(a, b, z) && p.CreateClient?
    ensures SimApplied(ApplyCreateClient(a, at, now, p), ApplyCreateClient(b, at, now, p), z)
  {
    var x, y := ApplyCreateClient(a, at, now, p), ApplyCreateClient(b, at, now, p);
    SameClientRefusal(a, b, z, p);
    if ClientRefusal(a, p).None? { SimClients(a, b, x.state, y.state, z); }
  }

  lemma SimRevokeClient(a: AppState, b: AppState, z: Scope, at: Position, now: Int64, p: Body)
    requires Sim(a, b, z) && p.RevokeClient?
    ensures SimApplied(ApplyRevokeClient(a, at, now, p), ApplyRevokeClient(b, at, now, p), z)
  {
    var x, y := ApplyRevokeClient(a, at, now, p), ApplyRevokeClient(b, at, now, p);
    if x.result.ClientChanged? && !x.result.duplicate { SimClients(a, b, x.state, y.state, z); }
  }

  /** A policy update from ts on converts similar buckets to equal ones. */
  lemma SimConverted(
    a: AppState, b: AppState, a': AppState, b': AppState, z: Scope,
    id: Str, policy: Policy, now: Int64)
    requires Sim(a, b, z) && SameClients(a', b')
    requires BucketsOk(b.buckets, b.policies) && id in a.policies && id in b.policies && now >= z.ts
    requires a'.buckets == ConvertAll(a.buckets, id, a.policies[id].rate, policy.rate, now, policy.version)
    requires b'.buckets == ConvertAll(b.buckets, id, a.policies[id].rate, policy.rate, now, policy.version)
    requires a'.policies == a.policies[id := policy] && b'.policies == b.policies[id := policy]
    requires a'.decisions == a.decisions && b'.decisions == b.decisions
    ensures Sim(a', b', z)
  {
    assert SimPolicy(a, b, z, id);
    forall x ensures SimPolicy(a', b', z, x) { assert SimPolicy(a, b, z, x); }
    forall k ensures SimBucket(a', b', z, k) {
      assert SimBucket(a, b, z, k) && SimPolicy(a, b, z, k.0) && BucketOk(b.buckets, b.policies, k);
      if k in a.buckets && k.0 == id { AlikeRefill(a.buckets[k], b.buckets[k], a.policies[id].rate, z.ts, now); }
    }
    forall k ensures SimRecord(a', b', z, k) { assert SimRecord(a, b, z, k); }
  }

  lemma SimUpdate(a: AppState, b: AppState, z: Scope, at: Position, now: Int64, p: Body)
    requires Sim(a, b, z) && StoreOk(a) && StoreOk(b) && now >= z.ts && p.UpdatePolicy?
    requires p.id !in z.policies
    ensures SimApplied(ApplyUpdatePolicy(a, at, now, p), ApplyUpdatePolicy(b, at, now, p), z)
  {
    var x, y := ApplyUpdatePolicy(a, at, now, p), ApplyUpdatePolicy(b, at, now, p);
    assert PolicyOk(a.policies, p.id) && SimPolicy(a, b, z, p.id);
    if x.result.PolicyChanged? { SimConverted(a, b, x.state, y.state, z, p.id, x.result.policy, now); }
  }

  lemma SimPrune(a: AppState, b: AppState, z: Scope, now: Int64, p: Body)
    requires Sim(a, b, z) && p.Prune?
    ensures Sim(ApplyPrune(a, now, p).state, ApplyPrune(b, now, p).state, z)
  {
    var a', b' := ApplyPrune(a, now, p).state, ApplyPrune(b, now, p).state;
    forall id ensures SimPolicy(a', b', z, id) { assert SimPolicy(a, b, z, id); }
    forall k ensures SimBucket(a', b', z, k) { assert SimBucket(a, b, z, k); }
    forall k ensures SimRecord(a', b', z, k) { assert SimRecord(a, b, z, k); }
  }

  lemma SimSpending(a: AppState, b: AppState, z: Scope, now: Int64, p: Body)
    requires Sim(a, b, z) && StoreOk(b) && z.ts >= 0 && now >= z.ts && p.Decide?
    requires p.policyId in a.policies && p.policyId in b.policies && SimPolicy(a, b, z, p.policyId)
    ensures var x, y := SpendingFor(a, now, p), SpendingFor(b, now, p);
            && SameCore(x.bucket, y.bucket) && x.allowed == y.allowed && x.retryAfter == y.retryAfter
            && y.bucket.policyId == p.policyId && y.bucket.subject == p.subject
  {
    var before, policy := a.policies[p.policyId], b.policies[p.policyId];
    assert PolicyOk(b.policies, p.policyId);
    assert SimBucket(a, b, z, (p.policyId, p.subject));
    LoadedInRange(b, policy, p.subject, now);
    var x, y := LoadBucket(a, before, p.subject, now), LoadBucket(b, policy, p.subject, now);
    AlikeRefill(x, y, policy.rate, z.ts, now);
    SpendCore(Refill(x, policy.rate, now), Refill(y, policy.rate, now), p.cost, policy.rate);
  }

  lemma SimCharge(a: AppState, b: AppState, z: Scope, at: Position, now: Int64, p: Body)
    requires Sim(a, b, z) && StoreOk(b) && z.ts >= 0 && now >= z.ts && p.Decide?
    requires p.policyId in a.policies && p.policyId in b.policies
    ensures SimApplied(Charge(a, at, now, p), Charge(b, at, now, p), z)
  {
    assert SimPolicy(a, b, z, p.policyId);
    SimSpending(a, b, z, now, p);
    var a', b' := Charge(a, at, now, p).state, Charge(b, at, now, p).state;
    forall id ensures SimPolicy(a', b', z, id) { assert SimPolicy(a, b, z, id); }
    forall k ensures SimBucket(a', b', z, k) { assert SimBucket(a, b, z, k); }
    forall k ensures SimRecord(a', b', z, k) { assert SimRecord(a, b, z, k); }
  }

  lemma SimDecide(a: AppState, b: AppState, z: Scope, at: Position, now: Int64, p: Body)
    requires Sim(a, b, z) && StoreOk(b) && z.ts >= 0 && now >= z.ts && p.Decide?
    requires (p.clientId, p.requestId) !in z.requests
    ensures SimApplied(ApplyDecide(a, at, now, p), ApplyDecide(b, at, now, p), z)
  {
    var key := (p.clientId, p.requestId);
    assert SimRecord(a, b, z, key) && SimPolicy(a, b, z, p.policyId);
    assert Refusal(a, p) == Refusal(b, p);
    if Refusal(a, p).None? { SimCharge(a, b, z, at, now, p); }
  }

  // ---- one entry ----

  /** A change that names the version of the policy that it expects. */
  predicate Revises(e: LogEntry, id: Str) {
    && e.payload.Carries? && (e.payload.command.body.UpdatePolicy? || e.payload.command.body.SetPolicyActive?)
    && e.payload.command.body.id == id
  }

  /** Proposed no earlier than the scope's time, and about none of its requests and versions. */
  ghost predicate Later(e: LogEntry, z: Scope) {
    && (e.payload.Carries? ==> e.payload.command.timestamp >= z.ts)
    && (forall k :: k in z.requests ==> !Asks(e, k))
    && (forall id :: id in z.policies ==> !Revises(e, id))
  }

  /** Both runs answer the same; only a prune's counts may show a record that the other lacks. */
  ghost predicate SameAnswer(e: LogEntry, x: Applied, y: Applied) {
    x.Applied? == y.Applied? && (x.Applied? && !IsPrune(e) ==> x.result == y.result)
  }

  lemma SimEntry(a: AppState, b: AppState, z: Scope, e: LogEntry)
    requires Sim(a, b, z) && StoreOk(a) && StoreOk(b) && z.ts >= 0 && Later(e, z)
    ensures SameAnswer(e, Step(a, e), Step(b, e))
    ensures Step(a, e).Applied? ==> Sim(Step(a, e).state, Step(b, e).state, z)
  {
    if e.payload.Carries? {
      var at, now, p := Position(e.index, e.term), e.payload.command.timestamp, e.payload.command.body;
      match p
      case CreatePolicy(_, _, _, _, _, _, _) => SimCreatePolicy(a, b, z, at, now, p);
      case SetPolicyActive(_, _, _) => SimSetActive(a, b, z, at, now, p);
      case UpdatePolicy(_, _, _, _, _, _, _) => SimUpdate(a, b, z, at, now, p);
      case Decide(_, _, _, _, _, _) => SimDecide(a, b, z, at, now, p);
      case CreateClient(_, _, _, _, _) => SimCreateClient(a, b, z, at, now, p);
      case RevokeClient(_) => SimRevokeClient(a, b, z, at, now, p);
      case Prune(_) => SimPrune(a, b, z, now, p);
      case Malformed =>
    }
  }

  // ---- the denial itself ----

  ghost predicate Denied(s: AppState, e: LogEntry) {
    var a := Step(s, e);
    a.Applied? && a.result.Decided? && !a.result.duplicate && !a.result.decision.allowed
  }

  /** Only a bucket that already exists can deny. */
  lemma DenialRefills(s: AppState, ts: Int64, p: Body)
    requires StoreOk(s) && ts >= 0 && p.Decide? && RequestOk(p) && Refusal(s, p).None? && !SpendingFor(s, ts, p).allowed
    ensures var k, r := (p.policyId, p.subject), s.policies[p.policyId].rate;
            && k in s.buckets && SpendingFor(s, ts, p).bucket == Refill(s.buckets[k], r, ts)
            && s.buckets[k].policyId == p.policyId && s.buckets[k].subject == p.subject
  {
    var policy := s.policies[p.policyId];
    assert PolicyOk(s.policies, p.policyId);
    LoadedInRange(s, policy, p.subject, ts);
    var b := LoadBucket(s, policy, p.subject, ts);
    RefillIsExact(b, policy.rate, ts);
    SpendIsExact(Refill(b, policy.rate, ts), p.cost, policy.rate);
    WrapFits(policy.rate.capacity * MILLI);
    CreditNonNegative(b, policy.rate, 0);
  }

  function DenialScope(ts: Int64, p: Body): Scope
    requires p.Decide?
  {
    Scope(ts, {(p.clientId, p.requestId)}, {})
  }

  lemma DenialSim(s: AppState, at: Position, ts: Int64, p: Body)
    requires StoreOk(s) && ts >= 0 && p.Decide? && RequestOk(p) && Refusal(s, p).None? && !SpendingFor(s, ts, p).allowed
    ensures Sim(Charge(s, at, ts, p).state, s, DenialScope(ts, p))
  {
    DenialRefills(s, ts, p);
    var s', z, k0 := Charge(s, at, ts, p).state, DenialScope(ts, p), (p.policyId, p.subject);
    var bucket := SpendingFor(s, ts, p).bucket;
    assert bucket.policyId == p.policyId && bucket.subject == p.subject by {
      RefillCore(s.buckets[k0], s.buckets[k0], s.policies[p.policyId].rate, ts);
    }
    forall k ensures SimBucket(s', s, z, k) {
      assert BucketOk(s.buckets, s.policies, k);
      if k != k0 && k in s.buckets { assert SameCore(s'.buckets[k], s.buckets[k]); }
    }
    forall id ensures SimPolicy(s', s, z, id) { }
    forall k ensures SimRecord(s', s, z, k) { }
  }

  lemma DenialIsDecide(s: AppState, e: LogEntry)
    requires Denied(s, e)
    ensures e.payload.Carries? && e.payload.command.body.Decide?
    ensures var p, ts := e.payload.command.body, e.payload.command.timestamp;
            && RequestOk(p) && Refusal(s, p).None? && !SpendingFor(s, ts, p).allowed
            && Step(s, e) == Charge(s, Position(e.index, e.term), ts, p)
  {
  }

  // ---- whole logs ----

  lemma {:induction false} SimRun(a: AppState, b: AppState, z: Scope, es: seq<LogEntry>)
    requires Sim(a, b, z) && StoreOk(a) && StoreOk(b) && z.ts >= 0 && forall e :: e in es ==> Later(e, z)
    ensures Run(a, es).Some? == Run(b, es).Some?
    ensures Run(a, es).Some? ==>
              && StoreOk(Run(a, es).value) && StoreOk(Run(b, es).value)
              && Sim(Run(a, es).value, Run(b, es).value, z)
  {
    if |es| == 0 {
    } else {
      var rest, e := es[..|es| - 1], es[|es| - 1];
      SimRun(a, b, z, rest);
      assert e in es;
      if Run(a, rest).Some? {
        var t, u := Run(a, rest).value, Run(b, rest).value;
        SimEntry(t, u, z, e);
        if Step(t, e).Applied? {
          EntryKeepsStore(t, e);
          EntryKeepsStore(u, e);
        }
      }
    }
  }

  lemma NeutralThen(s: AppState, e: LogEntry, z: Scope, between: seq<LogEntry>, next: LogEntry)
    requires StoreOk(s) && Timely(e) && Step(s, e).Applied? && Sim(Step(s, e).state, s, z) && z.ts >= 0
    requires forall f :: f in between + [next] ==> Later(f, z)
    ensures var a, b := Run(Step(s, e).state, between), Run(s, between);
            && a.Some? == b.Some?
            && (a.Some? ==> SameAnswer(next, Step(a.value, next), Step(b.value, next)))
  {
    EntryKeepsStore(s, e);
    assert forall f :: f in between ==> f in between + [next];
    SimRun(Step(s, e).state, s, z, between);
    if Run(s, between).Some? {
      SimEntry(Run(Step(s, e).state, between).value, Run(s, between).value, z, next);
    }
  }

  lemma AllLater(es: seq<LogEntry>, i: nat, j: nat, z: Scope)
    requires i < j < |es| && forall k :: i < k <= j ==> Later(es[k], z)
    ensures forall f :: f in es[i + 1..j] + [es[j]] ==> Later(f, z)
  {
    var later := es[i + 1..j] + [es[j]];
    forall f | f in later ensures Later(f, z) {
      var k :| 0 <= k < |later| && later[k] == f;
      assert f == es[i + 1 + k];
    }
  }

  /** Entry j of the log gets the same answer when entry i is a no-op. */
  ghost predicate Neutral(es: seq<LogEntry>, i: nat, j: nat)
    requires i < j < |es|
  {
    var without := es[i := es[i].(payload := Noop)];
    var a, b := Run(EMPTY_STATE, es[..j]), Run(EMPTY_STATE, without[..j]);
    a.Some? == b.Some? && (a.Some? ==> SameAnswer(es[j], Step(a.value, es[j]), Step(b.value, es[j])))
  }

  lemma NeutralInLog(es: seq<LogEntry>, i: nat, j: nat, z: Scope)
    requires i < j < |es| && (forall e :: e in es ==> Timely(e)) && Run(EMPTY_STATE, es[..i]).Some? && z.ts >= 0
    requires var s := Run(EMPTY_STATE, es[..i]).value; Step(s, es[i]).Applied? && Sim(Step(s, es[i]).state, s, z)
    requires forall k :: i < k <= j ==> Later(es[k], z)
    ensures Neutral(es, i, j)
  {
    var without, between := es[i := es[i].(payload := Noop)], es[i + 1..j];
    EmptyStoreOk();
    StoreAlwaysOk(EMPTY_STATE, es[..i]);
    RunSplit(EMPTY_STATE, es, i, j);
    RunSplit(EMPTY_STATE, without, i, j);
    assert without[..i] == es[..i] && without[i + 1..j] == between;
    AllLater(es, i, j, z);
    NeutralThen(Run(EMPTY_STATE, es[..i]).value, es[i], z, between, es[j]);
  }

  /** In every log, replacing a denied decision by a no-op leaves the answer to every
      later entry unchanged, if that log's later timestamps are no earlier and its
      later requests do not reuse the denied one's key. */
  lemma DenialsAreNeutral(es: seq<LogEntry>, i: nat, j: nat)
    requires i < j < |es| && (forall e :: e in es ==> Timely(e))
    requires Run(EMPTY_STATE, es[..i]).Some? && Denied(Run(EMPTY_STATE, es[..i]).value, es[i])
    requires es[i].payload.Carries? && es[i].payload.command.body.Decide?
    requires var c := es[i].payload.command;
             forall k :: i < k <= j ==> Later(es[k], DenialScope(c.timestamp, c.body))
    ensures Neutral(es, i, j)
  {
    var s, c := Run(EMPTY_STATE, es[..i]).value, es[i].payload.command;
    EmptyStoreOk();
    StoreAlwaysOk(EMPTY_STATE, es[..i]);
    assert Timely(es[i]);
    DenialIsDecide(s, es[i]);
    DenialSim(s, Position(es[i].index, es[i].term), c.timestamp, c.body);
    NeutralInLog(es, i, j, DenialScope(c.timestamp, c.body));
  }

  // ---- updates that keep the rate ----

  /** An applied update of an existing policy to the rate that it has. */
  ghost predicate KeepsRate(s: AppState, e: LogEntry) {
    && e.payload.Carries? && e.payload.command.body.UpdatePolicy? && Step(s, e).Applied?
    && var r := Step(s, e).result;
    r.PolicyChanged? && r.policy.id in s.policies && r.policy.rate == s.policies[r.policy.id].rate
  }

  function UpdateScope(ts: Int64, p: Body): Scope
    requires p.UpdatePolicy?
  {
    Scope(ts, {}, {p.id})
  }

  lemma ConvertedAlike(b: Bucket, r: Rate, ts: Int64, version: nat)
    requires InRange(b, r)
    ensures SameCore(Convert(b, r, r, ts, version), Refill(b, r, ts))
  {
    RefillIsExact(b, r, ts);
    WrapFits(r.capacity * MILLI);
  }

  lemma UpdateSim(s: AppState, e: LogEntry)
    requires StoreOk(s) && KeepsRate(s, e)
    ensures var c := e.payload.command; Sim(Step(s, e).state, s, UpdateScope(c.timestamp, c.body))
  {
    var ts, p := e.payload.command.timestamp, e.payload.command.body;
    var s', z := Step(s, e).state, UpdateScope(ts, p);
    assert PolicyOk(s.policies, p.id);
    var r, version := s.policies[p.id].rate, Step(s, e).result.policy.version;
    forall id ensures SimPolicy(s', s, z, id) { }
    forall k ensures SimBucket(s', s, z, k) {
      assert BucketOk(s.buckets, s.policies, k);
      if k in s.buckets && k.0 == p.id { ConvertedAlike(s.buckets[k], r, ts, version); }
    }
    forall k ensures SimRecord(s', s, z, k) { }
  }

  /** In every log, replacing an update that keeps the policy's rate by a no-op leaves the
      answer to every later entry unchanged, if later timestamps are no earlier and no later
      change names a version of that policy. */
  lemma SameRateIsNeutral(es: seq<LogEntry>, i: nat, j: nat)
    requires i < j < |es| && (forall e :: e in es ==> Timely(e))
    requires Run(EMPTY_STATE, es[..i]).Some? && KeepsRate(Run(EMPTY_STATE, es[..i]).value, es[i])
    requires es[i].payload.Carries? && es[i].payload.command.body.UpdatePolicy?
    requires var c := es[i].payload.command;
             forall k :: i < k <= j ==> Later(es[k], UpdateScope(c.timestamp, c.body))
    ensures Neutral(es, i, j)
  {
    var s, c := Run(EMPTY_STATE, es[..i]).value, es[i].payload.command;
    EmptyStoreOk();
    StoreAlwaysOk(EMPTY_STATE, es[..i]);
    assert Timely(es[i]);
    UpdateSim(s, es[i]);
    NeutralInLog(es, i, j, UpdateScope(c.timestamp, c.body));
  }
}
