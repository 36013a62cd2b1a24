/**
  The seven commands as they run: reading and writing an open transaction, with the
  collect-then-write loops of updates and pruning.  Each leaves the transaction in
  the state, and returns the result, that StateMachine.dfy computes.
 */
module StateMachineTx {
  import opened Models
  import opened Int64Math
  import opened TokenBucket
  import opened Validation
  import opened Encoding
  import opened StateStore
  import opened BucketCell
  import opened StoreInvariant
  import opened Pruning
  import SM = StateMachine

  /** An error aborts the transaction; otherwise its state and the result stand. */
  function Outcome(s: AppState, r: Option<Result>): Applied {
    if r.None? then Failed else Applied(s, r.value)
  }

  method WriteAdminAudit(tx: StateTx, at: SM.Position, event: Event, policyId: Str, ts: Int64)
    requires tx.Valid() && at.index < U64_LIMIT
    modifies tx`audits, tx`S
    ensures tx.Valid() && tx.S == SM.AdminAudit(old(tx.S), at, event, policyId, ts)
  {
    tx.PutAudit(at.index, Audit(event, ts, SM.ADMIN_ACTOR, SM.ADMIN_ACTOR, [], policyId, false, 0, 0,
                                at.term, at.index));
  }

  // ---- policies ----

  method CreatePolicy(tx: StateTx, at: SM.Position, ts: Int64, p: Body) returns (r: Result)
    requires tx.Valid() && at.index < U64_LIMIT && p.CreatePolicy?
    modifies tx
    ensures tx.Valid() && Applied(tx.S, r) == SM.ApplyCreatePolicy(old(tx.S), at, ts, p)
    ensures tx.lastApplied == old(tx.lastApplied)
  {
    var refusal := RefusePolicy(tx, p);
    if refusal.Some? { return Rejected(refusal.value); }
    var policy := SM.NewPolicy(p, ts);
    StorePolicy(tx, at, ts, policy, PolicyCreated);
    return PolicyChanged(policy);
  }

  method RefusePolicy(tx: StateTx, p: Body) returns (refusal: Option<RejectCode>)
    requires tx.Valid() && p.CreatePolicy?
    ensures refusal == SM.PolicyRefusal(tx.S, p)
  {
    if !ValidPolicyId(p.id) { return Some(ValidationFailed); }
    var name := ValidateName(p.name, MAX_POLICY_NAME);
    if name.None? { return Some(ValidationFailed); }
    if !PolicyFieldsOk(p.capacity, p.refill, p.interval, p.maxCost) { return Some(ValidationFailed); }
    if p.id in tx.policies { return Some(PolicyExists); }
    return None;
  }

  method StorePolicy(tx: StateTx, at: SM.Position, ts: Int64, policy: Policy, event: Event)
    requires tx.Valid() && at.index < U64_LIMIT
    modifies tx`policies, tx`audits, tx`S
    ensures tx.Valid()
    ensures var s := old(tx.S);
            tx.S == SM.AdminAudit(s.(policies := s.policies[policy.id := policy]), at, event, policy.id, ts)
  {
    tx.PutPolicy(policy);
    WriteAdminAudit(tx, at, event, policy.id, ts);
  }

  method ConvertBucket(b: Bucket, before: Rate, after: Rate, ts: Int64, version: nat) returns (converted: Bucket)
    ensures converted == SM.Convert(b, before, after, ts, version)
  {
    var cell := new Cell(b);
    cell.RefillBucket(before, ts);
    var cap := Wrap(after.capacity * MILLI);
    if cell.tokens > cap { cell.tokens := cap; }
    if before.interval != after.interval { cell.remainder := 0; }
    cell.policyVersion := version;
    return cell.Value();
  }

  /** Buckets written one after the other, each under its own policy and subject. */
  function PutBuckets(m: map<Pair, Bucket>, bs: seq<Bucket>): map<Pair, Bucket> {
    if |bs| == 0 then m
    else PutBuckets(m, bs[..|bs| - 1])[(bs[|bs| - 1].policyId, bs[|bs| - 1].subject) := bs[|bs| - 1]]
  }

  /** The rewritten buckets of one policy, and whose they are. */
  ghost predicate Rewrites(m: map<Pair, Bucket>, id: Str, bs: seq<Bucket>, found: seq<(Str, Bucket)>,
                           before: Rate, after: Rate, ts: Int64, version: nat) {
    |bs| == |found| && forall i :: 0 <= i < |bs| ==>
      && (id, found[i].0) in m && (bs[i].policyId, bs[i].subject) == (id, found[i].0)
      && bs[i] == SM.Convert(m[(id, found[i].0)], before, after, ts, version)
  }

  lemma MentionsLast(found: seq<(Str, Bucket)>, s: Str)
    requires |found| > 0
    ensures Mentions(found, s) <==> Mentions(found[..|found| - 1], s) || found[|found| - 1].0 == s
  {
    var n := |found| - 1;
    if Mentions(found, s) {
      var i :| 0 <= i < |found| && found[i].0 == s;
      assert i < n ==> found[..n][i].0 == s;
    }
    if Mentions(found[..n], s) {
      var i :| 0 <= i < n && found[..n][i].0 == s;
      assert found[i].0 == s;
    }
  }

  /** After writing the first n, those are converted and the others are as they were. */
  lemma {:induction false} PutBucketsAt(m: map<Pair, Bucket>, id: Str, bs: seq<Bucket>, found: seq<(Str, Bucket)>,
                                        before: Rate, after: Rate, ts: Int64, version: nat, k: Pair)
    requires Rewrites(m, id, bs, found, before, after, ts, version)
    ensures k in PutBuckets(m, bs) <==> k in m
    ensures k in m ==>
              PutBuckets(m, bs)[k] ==
              if k.0 == id && Mentions(found, k.1) then SM.Convert(m[k], before, after, ts, version) else m[k]
  {
    if |bs| > 0 {
      var n := |bs| - 1;
      PutBucketsAt(m, id, bs[..n], found[..n], before, after, ts, version, k);
      MentionsLast(found, k.1);
    }
  }

  lemma PutBucketsIsConvertAll(m: map<Pair, Bucket>, id: Str, bs: seq<Bucket>, found: seq<(Str, Bucket)>,
                               before: Rate, after: Rate, ts: Int64, version: nat)
    requires ListsPolicy(m, id, found) && Rewrites(m, id, bs, found, before, after, ts, version)
    ensures PutBuckets(m, bs) == SM.ConvertAll(m, id, before, after, ts, version)
  {
    forall k ensures k in PutBuckets(m, bs) <==> k in m {
      PutBucketsAt(m, id, bs, found, before, after, ts, version, k);
    }
    forall k | k in m ensures PutBuckets(m, bs)[k] == SM.ConvertAll(m, id, before, after, ts, version)[k] {
      PutBucketsAt(m, id, bs, found, before, after, ts, version, k);
      assert k == (k.0, k.1);
    }
  }

  lemma ConvertKeepsOwner(b: Bucket, before: Rate, after: Rate, ts: Int64, version: nat)
    ensures var c := SM.Convert(b, before, after, ts, version); c.policyId == b.policyId && c.subject == b.subject
  {
  }

  /** A listed bucket is the one stored under its policy and subject, and says so. */
  ghost predicate OwnBucket(m: map<Pair, Bucket>, id: Str, x: (Str, Bucket)) {
    Listed(m, id, x) && (x.1.policyId, x.1.subject) == (id, x.0) && PairFits((id, x.0))
  }

  method ConvertEach(found: seq<(Str, Bucket)>, ghost m: map<Pair, Bucket>, id: Str,
                     before: Rate, after: Rate, ts: Int64, version: nat) returns (toWrite: seq<Bucket>)
    requires forall i :: 0 <= i < |found| ==> OwnBucket(m, id, found[i])
    ensures Rewrites(m, id, toWrite, found, before, after, ts, version)
  {
    toWrite := [];
    for i := 0 to |found|
      invariant Rewrites(m, id, toWrite, found[..i], before, after, ts, version)
    {
      var b := ConvertBucket(found[i].1, before, after, ts, version);
      ConvertKeepsOwner(found[i].1, before, after, ts, version);
      toWrite := toWrite + [b];
    }
    assert found[..|found|] == found;
  }

  lemma OwnBuckets(tx: StateTx, id: Str, found: seq<(Str, Bucket)>)
    requires tx.Valid() && StoreOk(tx.S) && ListsPolicy(tx.S.buckets, id, found)
    ensures forall i :: 0 <= i < |found| ==> OwnBucket(tx.S.buckets, id, found[i])
  {
    forall i | 0 <= i < |found| ensures OwnBucket(tx.S.buckets, id, found[i]) {
      assert BucketOk(tx.S.buckets, tx.S.policies, (id, found[i].0));
      assert Under(tx.tokenBuckets, tx.S.buckets, (id, found[i].0));
    }
  }

  /** Convert every bucket of a policy: collect the rewritten ones, then write them. */
  method ConvertBuckets(tx: StateTx, id: Str, before: Rate, after: Rate, ts: Int64, version: nat) returns (ok: bool)
    requires tx.Valid() && StoreOk(tx.S) && ValidPolicyId(id)
    modifies tx`tokenBuckets, tx`S
    ensures ok && tx.Valid()
    ensures tx.S == old(tx.S).(buckets := SM.ConvertAll(old(tx.S).buckets, id, before, after, ts, version))
  {
    ghost var m := tx.S.buckets;
    var found := tx.ForEachTokenBucketByPolicy(id);
    if found.None? { return false; }
    OwnBuckets(tx, id, found.value);
    var toWrite := ConvertEach(found.value, m, id, before, after, ts, version);
    PutBucketsIsConvertAll(m, id, toWrite, found.value, before, after, ts, version);
    for i := 0 to |toWrite|
      invariant tx.Valid() && tx.S == old(tx.S).(buckets := PutBuckets(m, toWrite[..i]))
    {
      assert OwnBucket(m, id, found.value[i]);
      assert toWrite[..i + 1][..i] == toWrite[..i];
      ok := tx.PutTokenBucket(toWrite[i]);
      if !ok { return; }
    }
    assert toWrite[..|toWrite|] == toWrite;
    return true;
  }

  method UpdatePolicy(tx: StateTx, at: SM.Position, ts: Int64, p: Body) returns (r: Option<Result>)
    requires tx.Valid() && StoreOk(tx.S) && at.index < U64_LIMIT && p.UpdatePolicy?
    modifies tx
    ensures tx.Valid() && Outcome(tx.S, r) == SM.ApplyUpdatePolicy(old(tx.S), at, ts, p)
    ensures tx.lastApplied == old(tx.lastApplied)
  {
    var refusal := RefuseUpdate(tx, p);
    if refusal.Some? { return Some(Rejected(refusal.value)); }
    var prior := tx.policies[p.id];
    var policy := SM.Revised(prior, p, ts);
    assert PolicyOk(tx.S.policies, p.id);
    var ok := ReplacePolicy(tx, at, ts, prior.rate, policy);
    if !ok { return None; }
    return Some(PolicyChanged(policy));
  }

  method RefuseUpdate(tx: StateTx, p: Body) returns (refusal: Option<RejectCode>)
    requires tx.Valid() && p.UpdatePolicy?
    ensures refusal == SM.UpdateRefusal(tx.S, p)
  {
    if p.id !in tx.policies { return Some(PolicyNotFound); }
    if tx.policies[p.id].version != p.expectedVersion { return Some(VersionConflict); }
    var name := ValidateName(p.name, MAX_POLICY_NAME);
    if name.None? { return Some(ValidationFailed); }
    if !PolicyFieldsOk(p.capacity, p.refill, p.interval, p.maxCost) { return Some(ValidationFailed); }
    return None;
  }

  method ReplacePolicy(tx: StateTx, at: SM.Position, ts: Int64, before: Rate, policy: Policy) returns (ok: bool)
    requires tx.Valid() && StoreOk(tx.S) && ValidPolicyId(policy.id) && at.index < U64_LIMIT
    modifies tx`tokenBuckets, tx`policies, tx`audits, tx`S
    ensures ok && tx.Valid()
    ensures var s := old(tx.S);
            var buckets := SM.ConvertAll(s.buckets, policy.id, before, policy.rate, ts, policy.version);
            tx.S == SM.AdminAudit(s.(buckets := buckets, policies := s.policies[policy.id := policy]),
                                  at, PolicyUpdated, policy.id, ts)
  {
    ok := ConvertBuckets(tx, policy.id, before, policy.rate, ts, policy.version);
    if !ok { return; }
    StorePolicy(tx, at, ts, policy, PolicyUpdated);
  }

  method SetPolicyActive(tx: StateTx, at: SM.Position, ts: Int64, p: Body) returns (r: Result)
    requires tx.Valid() && at.index < U64_LIMIT && p.SetPolicyActive?
    modifies tx
    ensures tx.Valid() && Applied(tx.S, r) == SM.ApplySetPolicyActive(old(tx.S), at, ts, p)
    ensures tx.lastApplied == old(tx.lastApplied)
  {
    if p.id !in tx.policies { return Rejected(PolicyNotFound); }
    var policy := tx.policies[p.id];
    if policy.version != p.expectedVersion { return Rejected(VersionConflict); }
    policy := policy.(active := p.active, version := policy.version + 1, updatedAt := ts);
    var event := PolicyDeactivated;
    if p.active { event := PolicyActivated; }
    StorePolicy(tx, at, ts, policy, event);
    return PolicyChanged(policy);
  }

  // ---- clients ----

  method CreateClient(tx: StateTx, at: SM.Position, ts: Int64, p: Body) returns (r: Result)
    requires tx.Valid() && at.index < U64_LIMIT && p.CreateClient?
    modifies tx
    ensures tx.Valid() && Applied(tx.S, r) == SM.ApplyCreateClient(old(tx.S), at, ts, p)
    ensures tx.lastApplied == old(tx.lastApplied)
  {
    var refusal := RefuseClient(tx, p);
    if refusal.Some? { return Rejected(refusal.value); }
    var client := SM.NewClient(p, ts);
    AdmitClient(tx, at, ts, client);
    return ClientChanged(client, false);
  }

  method AdmitClient(tx: StateTx, at: SM.Position, ts: Int64, client: Client)
    requires tx.Valid() && at.index < U64_LIMIT
    modifies tx`clients, tx`prefixes, tx`audits, tx`S
    ensures tx.Valid()
    ensures var s := old(tx.S);
            tx.S == SM.AdminAudit(s.(clients := s.clients[client.id := client],
                                     prefixes := s.prefixes[client.keyPrefix := client.id]),
                                  at, ClientCreated, [], ts)
  {
    tx.PutClient(client);
    tx.PutClientPrefix(client.keyPrefix, client.id);
    WriteAdminAudit(tx, at, ClientCreated, [], ts);
  }

  method RefuseClient(tx: StateTx, p: Body) returns (refusal: Option<RejectCode>)
    requires tx.Valid() && p.CreateClient?
    ensures refusal == SM.ClientRefusal(tx.S, p)
  {
    var name := ValidateName(p.name, MAX_CLIENT_NAME);
    if name.None? { return Some(ValidationFailed); }
    var allowed := ValidateAllowedPolicies(p.allowedPolicies);
    if !allowed { return Some(ValidationFailed); }
    if p.id == [] || p.keyPrefix == [] || p.keyDigest == [] { return Some(ValidationFailed); }
    if p.id in tx.clients { return Some(ClientExists); }
    if p.keyPrefix in tx.prefixes { return Some(KeyPrefixConflict); }
    if |p.allowedPolicies| != 1 || p.allowedPolicies[0] != WILDCARD {
      assert p.allowedPolicies != [WILDCARD];
      var known := PoliciesKnown(tx, p.allowedPolicies);
      if !known { return Some(PolicyNotFound); }
    } else {
      assert p.allowedPolicies == [WILDCARD];
    }
    return None;
  }

  method PoliciesKnown(tx: StateTx, ids: seq<Str>) returns (known: bool)
    ensures known == SM.Known(tx.policies, ids)
  {
    for i := 0 to |ids|
      invariant forall j :: 0 <= j < i ==> ids[j] in tx.policies
    {
      if ids[i] !in tx.policies { return false; }
    }
    return true;
  }

  method RevokeClient(tx: StateTx, at: SM.Position, ts: Int64, p: Body) returns (r: Result)
    requires tx.Valid() && at.index < U64_LIMIT && p.RevokeClient?
    modifies tx
    ensures tx.Valid() && Applied(tx.S, r) == SM.ApplyRevokeClient(old(tx.S), at, ts, p)
    ensures tx.lastApplied == old(tx.lastApplied)
  {
    if p.id !in tx.clients { return Rejected(ClientNotFound); }
    var client := tx.clients[p.id];
    if !client.active { return ClientChanged(client, true); }
    client := client.(active := false, revokedAt := Some(ts));
    tx.PutClient(client);
    WriteAdminAudit(tx, at, ClientRevoked, [], ts);
    return ClientChanged(client, false);
  }

  // ---- decisions ----

  method LoadOrInitBucket(tx: StateTx, policy: Policy, subject: Str, now: Int64) returns (b: Option<Bucket>)
    requires tx.Valid()
    ensures b == if PairFits((policy.id, subject)) then Some(SM.LoadBucket(tx.S, policy, subject, now)) else None
  {
    var found := tx.GetTokenBucket(policy.id, subject);
    if found.None? { return None; }
    if found.value.Some? { return found.value; }
    return Some(Bucket(policy.id, subject, Wrap(policy.rate.capacity * MILLI), now, 0, policy.version, 0));
  }

  method RefillAndSpend(b: Bucket, rate: Rate, cost: Int64, ts: Int64) returns (spent: Spending)
    ensures spent == Spend(Refill(b, rate, ts), cost, rate)
  {
    var cell := new Cell(b);
    cell.RefillBucket(rate, ts);
    var allowed, retryAfter := cell.SpendTokens(cost, rate);
    return Spending(cell.Value(), allowed, retryAfter);
  }

  method AllowsPolicy(client: Client, policyId: Str) returns (ok: bool)
    ensures ok == SM.AllowsPolicy(client, policyId)
  {
    for i := 0 to |client.allowedPolicies|
      invariant forall j :: 0 <= j < i ==>
                  client.allowedPolicies[j] != WILDCARD && client.allowedPolicies[j] != policyId
    {
      if client.allowedPolicies[i] == WILDCARD || client.allowedPolicies[i] == policyId { return true; }
    }
    return false;
  }

  method RefuseRequest(tx: StateTx, p: Body) returns (refusal: Option<RejectCode>)
    requires tx.Valid() && p.Decide?
    ensures refusal == SM.Refusal(tx.S, p)
  {
    if p.clientId !in tx.clients { return Some(ClientNotFound); }
    var client := tx.clients[p.clientId];
    if !client.active { return Some(ClientIsRevoked); }
    var allows := AllowsPolicy(client, p.policyId);
    if !allows { return Some(ForbiddenPolicy); }
    if p.policyId !in tx.policies { return Some(PolicyNotFound); }
    var policy := tx.policies[p.policyId];
    if !policy.active { return Some(PolicyInactive); }
    if p.cost > policy.rate.maxCost { return Some(ValidationFailed); }
    return None;
  }

  /** Write the bucket, the decision record and the audit of one decision. */
  method RecordDecision(
    tx: StateTx, at: SM.Position, ts: Int64, p: Body, spent: Spending, version: nat) returns (r: Option<Result>)
    requires tx.Valid() && at.index < U64_LIMIT && p.Decide?
    requires PairFits((spent.bucket.policyId, spent.bucket.subject)) && PairFits((p.clientId, p.requestId))
    modifies tx`tokenBuckets, tx`idempotency, tx`audits, tx`S
    ensures tx.Valid() && r == Some(Decided(SM.DecisionOf(p, at, ts, spent), false))
    ensures tx.S == SM.Recorded(old(tx.S), at, ts, p, spent, version)
  {
    var bucket := spent.bucket.(policyVersion := version, updatedIndex := at.index);
    var ok := tx.PutTokenBucket(bucket);
    if !ok { return None; }
    var record := SM.DecisionOf(p, at, ts, spent);
    ok := tx.PutIdempotency(p.clientId, p.requestId, record);
    if !ok { return None; }
    var actor := p.actorType;
    if actor == [] { actor := SM.CLIENT_ACTOR; }
    tx.PutAudit(at.index, Audit(DecisionMade, ts, actor, p.clientId, p.requestId, p.policyId,
                                spent.allowed, p.cost, bucket.tokens, at.term, at.index));
    return Some(Decided(record, false));
  }

  lemma OwnerFits(s: AppState, p: Body, ts: Int64)
    requires StoreOk(s) && p.Decide? && SM.RequestOk(p) && p.policyId in s.policies
    ensures var b := SM.SpendingFor(s, ts, p).bucket;
            PairFits((s.policies[p.policyId].id, p.subject)) && PairFits((b.policyId, b.subject))
  {
    assert PolicyOk(s.policies, p.policyId);
    assert BucketOk(s.buckets, s.policies, (p.policyId, p.subject));
  }

  method Charge(tx: StateTx, at: SM.Position, ts: Int64, p: Body) returns (r: Option<Result>)
    requires tx.Valid() && StoreOk(tx.S) && at.index < U64_LIMIT && p.Decide? && SM.RequestOk(p)
    requires PairFits((p.clientId, p.requestId)) && p.policyId in tx.S.policies
    modifies tx`tokenBuckets, tx`idempotency, tx`audits, tx`S
    ensures tx.Valid() && Outcome(tx.S, r) == SM.Charge(old(tx.S), at, ts, p)
  {
    var policy := tx.policies[p.policyId];
    OwnerFits(tx.S, p, ts);
    var b := LoadOrInitBucket(tx, policy, p.subject, ts);
    if b.None? { return None; }
    var spent := RefillAndSpend(b.value, policy.rate, p.cost, ts);
    r := RecordDecision(tx, at, ts, p, spent, policy.version);
  }

  /** Answer from the record if there is one; else refuse, or charge and record. */
  method Decide(tx: StateTx, at: SM.Position, ts: Int64, p: Body) returns (r: Option<Result>)
    requires tx.Valid() && StoreOk(tx.S) && at.index < U64_LIMIT && p.Decide?
    modifies tx
    ensures tx.Valid() && Outcome(tx.S, r) == SM.ApplyDecide(old(tx.S), at, ts, p)
    ensures r.None? ==> tx.S == old(tx.S)
    ensures tx.lastApplied == old(tx.lastApplied)
  {
    if !SM.RequestOk(p) { return Some(Rejected(ValidationFailed)); }
    var digest := SM.RequestDigest(p.policyId, p.subject, p.cost);
    var found := tx.GetIdempotency(p.clientId, p.requestId);
    if found.None? { return None; }
    if found.value.Some? {
      var prior := found.value.value;
      return Some(if prior.digest != digest then Rejected(IdempotencyConflict) else Decided(prior, true));
    }
    var refusal := RefuseRequest(tx, p);
    if refusal.Some? { return Some(Rejected(refusal.value)); }
    r := Charge(tx, at, ts, p);
  }

  // ---- pruning ----

  method Prune(tx: StateTx, ts: Int64, p: Body) returns (r: Result)
    requires tx.Valid() && p.Prune?
    modifies tx
    ensures tx.Valid() && Applied(tx.S, r) == SM.ApplyPrune(old(tx.S), ts, p)
    ensures tx.lastApplied == old(tx.lastApplied)
  {
    var keep := SM.KeepMax(p);
    var expired := DropExpired(tx, ts);
    var removed := TrimAudits(tx, keep);
    return Pruned(expired, removed);
  }

  // ---- dispatch ----

  method ApplyPolicyTx(tx: StateTx, at: SM.Position, cmd: Command) returns (r: Option<Result>)
    requires tx.Valid() && StoreOk(tx.S) && at.index < U64_LIMIT
    requires cmd.body.CreatePolicy? || cmd.body.UpdatePolicy? || cmd.body.SetPolicyActive?
    modifies tx
    ensures tx.Valid() && r.Some? && Applied(tx.S, r.value) == SM.ApplyCommand(old(tx.S), at, cmd)
    ensures tx.lastApplied == old(tx.lastApplied)
  {
    match cmd.body
    case CreatePolicy(_, _, _, _, _, _, _) => var x := CreatePolicy(tx, at, cmd.timestamp, cmd.body); return Some(x);
    case UpdatePolicy(_, _, _, _, _, _, _) => r := UpdatePolicy(tx, at, cmd.timestamp, cmd.body);
    case SetPolicyActive(_, _, _) => var x := SetPolicyActive(tx, at, cmd.timestamp, cmd.body); return Some(x);
  }

  method ApplyClientTx(tx: StateTx, at: SM.Position, cmd: Command) returns (r: Result)
    requires tx.Valid() && at.index < U64_LIMIT && (cmd.body.CreateClient? || cmd.body.RevokeClient?)
    modifies tx
    ensures tx.Valid() && Applied(tx.S, r) == SM.ApplyCommand(old(tx.S), at, cmd)
    ensures tx.lastApplied == old(tx.lastApplied)
  {
    match cmd.body
    case CreateClient(_, _, _, _, _) => r := CreateClient(tx, at, cmd.timestamp, cmd.body);
    case RevokeClient(_) => r := RevokeClient(tx, at, cmd.timestamp, cmd.body);
  }

  method ApplyTx(tx: StateTx, at: SM.Position, cmd: Command) returns (r: Option<Result>)
    requires tx.Valid() && StoreOk(tx.S) && at.index < U64_LIMIT
    modifies tx
    ensures tx.Valid() && Outcome(tx.S, r) == SM.ApplyCommand(old(tx.S), at, cmd)
    ensures r.None? ==> tx.S == old(tx.S)
    ensures tx.lastApplied == old(tx.lastApplied)
  {
    match cmd.body
    case Decide(_, _, _, _, _, _) => r := Decide(tx, at, cmd.timestamp, cmd.body);
    case Prune(_) => var x := Prune(tx, cmd.timestamp, cmd.body); return Some(x);
    case Malformed => return None;
    case CreateClient(_, _, _, _, _) => var x := ApplyClientTx(tx, at, cmd); return Some(x);
    case RevokeClient(_) => var x := ApplyClientTx(tx, at, cmd); return Some(x);
    case _ => r := ApplyPolicyTx(tx, at, cmd);
  }

  /** Apply one committed entry.  Its effects and the applied checkpoint move together;
      an entry that fails leaves both alone. */
  method ApplyEntry(tx: StateTx, index: nat, term: nat, entry: LogEntry) returns (r: Option<Result>)
    requires tx.Valid() && StoreOk(tx.S) && index < U64_LIMIT
    modifies tx
    ensures tx.Valid() && Outcome(tx.S, r) == SM.ApplyEntry(old(tx.S), index, term, entry)
    ensures tx.lastApplied == if r.Some? then index else old(tx.lastApplied)
    ensures r.None? ==> tx.S == old(tx.S)
  {
    if entry.payload.Carries? {
      r := ApplyTx(tx, SM.Position(index, term), entry.payload.command);
      if r.None? { return; }
    } else {
      r := Some(Skipped);
    }
    tx.lastApplied := index;
  }
}
