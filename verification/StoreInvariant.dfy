/**
  The store invariant, kept by every command: buckets stay within their policy's
  current bounds, and the key-prefix index and client table are exact inverses.
 */
module StoreInvariant {
  import opened Models
  import Encoding
  import opened Int64Math
  import opened TokenBucket
  import opened BucketLaws
  import opened Validation
  import opened StateMachine

  ghost predicate PolicyOk(policies: map<Str, Policy>, id: Str) {
    id in policies ==> policies[id].id == id && ValidPolicyId(id) && policies[id].version >= 1
  }

  ghost predicate ClientOk(clients: map<Str, Client>, prefixes: map<Str, Str>, id: Str) {
    id in clients ==>
      clients[id].id == id && clients[id].keyPrefix in prefixes && prefixes[clients[id].keyPrefix] == id
  }

  ghost predicate PrefixOk(clients: map<Str, Client>, prefixes: map<Str, Str>, prefix: Str) {
    prefix in prefixes ==> prefixes[prefix] in clients && clients[prefixes[prefix]].keyPrefix == prefix
  }

  /** A bucket belongs to an existing policy and lies within its current bounds. */
  ghost predicate BucketOk(buckets: map<(Str, Str), Bucket>, policies: map<Str, Policy>, key: (Str, Str)) {
    key in buckets ==>
      && (buckets[key].policyId, buckets[key].subject) == key
      && key.0 in policies
      && InRange(buckets[key], policies[key.0].rate)
      && buckets[key].policyVersion <= policies[key.0].version
  }

  /** A decision record answers the request it is filed under. */
  ghost predicate RecordOk(decisions: map<(Str, Str), Decision>, key: (Str, Str)) {
    key in decisions ==>
      var d := decisions[key];
      && (d.clientId, d.requestId) == key
      && d.digest == RequestDigest(d.policyId, d.subject, d.cost)
      && ValidPolicyId(d.policyId) && ValidSubject(d.subject) && ValidRequestId(d.requestId) && d.cost >= 1
      && |d.clientId| <= Encoding.MAX_KEY_PART
  }

  ghost predicate PoliciesOk(policies: map<Str, Policy>) {
    forall id {:trigger PolicyOk(policies, id)} :: PolicyOk(policies, id)
  }

  /** The prefix index and the client table are exact inverses. */
  ghost predicate ClientsOk(clients: map<Str, Client>, prefixes: map<Str, Str>) {
    && (forall id {:trigger ClientOk(clients, prefixes, id)} :: ClientOk(clients, prefixes, id))
    && (forall p {:trigger PrefixOk(clients, prefixes, p)} :: PrefixOk(clients, prefixes, p))
  }

  ghost predicate BucketsOk(buckets: map<(Str, Str), Bucket>, policies: map<Str, Policy>) {
    forall k {:trigger BucketOk(buckets, policies, k)} :: BucketOk(buckets, policies, k)
  }

  ghost predicate RecordsOk(decisions: map<(Str, Str), Decision>) {
    forall k {:trigger RecordOk(decisions, k)} :: RecordOk(decisions, k)
  }

  ghost predicate StoreOk(s: AppState) {
    && PoliciesOk(s.policies)
    && ClientsOk(s.clients, s.prefixes)
    && BucketsOk(s.buckets, s.policies)
    && RecordsOk(s.decisions)
  }

  lemma EmptyStoreOk()
    ensures StoreOk(EMPTY_STATE)
  {
  }

  // ---- buckets through a command ----

  lemma LoadedInRange(s: AppState, policy: Policy, subject: Str, ts: Int64)
    requires BucketsOk(s.buckets, s.policies) && policy.id in s.policies && s.policies[policy.id] == policy && ts >= 0
    ensures var b := LoadBucket(s, policy, subject, ts);
            InRange(b, policy.rate) && b.policyId == policy.id && b.subject == subject
  {
    assert BucketOk(s.buckets, s.policies, (policy.id, subject));
    WrapFits(policy.rate.capacity * MILLI);
  }

  lemma ConvertInRange(b: Bucket, before: Rate, after: Rate, ts: Int64, version: nat)
    requires InRange(b, before)
    ensures var c := Convert(b, before, after, ts, version);
            InRange(c, after) && c.policyId == b.policyId && c.subject == b.subject && c.policyVersion == version
  {
    RefillIsExact(b, before, ts);
    WrapFits(after.capacity * MILLI);
  }

  // ---- each command keeps the invariant ----

  lemma PutPolicy(policies: map<Str, Policy>, policy: Policy)
    requires PoliciesOk(policies) && ValidPolicyId(policy.id) && policy.version >= 1
    ensures PoliciesOk(policies[policy.id := policy])
  {
    var after := policies[policy.id := policy];
    forall id ensures PolicyOk(after, id) { assert PolicyOk(policies, id); }
  }

  lemma KeepCreatePolicy(s: AppState, at: Position, ts: Int64, p: Body)
    requires StoreOk(s) && p.CreatePolicy?
    ensures StoreOk(ApplyCreatePolicy(s, at, ts, p).state)
  {
    var r := ApplyCreatePolicy(s, at, ts, p);
    if r.result.PolicyChanged? {
      PutPolicy(s.policies, r.result.policy);
      SameRate(s.buckets, s.policies, r.result.policy);
    }
  }

  /** Buckets do not notice a new policy, or a new version with the same rate. */
  lemma SameRate(buckets: map<(Str, Str), Bucket>, policies: map<Str, Policy>, policy: Policy)
    requires BucketsOk(buckets, policies)
    requires policy.id in policies ==>
               policies[policy.id].rate == policy.rate && policies[policy.id].version <= policy.version
    ensures BucketsOk(buckets, policies[policy.id := policy])
  {
    var after := policies[policy.id := policy];
    forall k ensures BucketOk(buckets, after, k) { assert BucketOk(buckets, policies, k); }
  }

  lemma ConvertedOk(s: AppState, id: Str, policy: Policy, ts: Int64)
    requires BucketsOk(s.buckets, s.policies) && id in s.policies && policy.id == id
    requires policy.version >= s.policies[id].version
    ensures BucketsOk(ConvertAll(s.buckets, id, s.policies[id].rate, policy.rate, ts, policy.version),
                      s.policies[id := policy])
  {
    var prior := s.policies[id];
    var after := ConvertAll(s.buckets, id, prior.rate, policy.rate, ts, policy.version);
    var policies := s.policies[id := policy];
    forall k ensures BucketOk(after, policies, k) {
      assert BucketOk(s.buckets, s.policies, k);
      if k in s.buckets && k.0 == id { ConvertInRange(s.buckets[k], prior.rate, policy.rate, ts, policy.version); }
    }
  }

  lemma KeepUpdatePolicy(s: AppState, at: Position, ts: Int64, p: Body)
    requires StoreOk(s) && p.UpdatePolicy?
    ensures StoreOk(ApplyUpdatePolicy(s, at, ts, p).state)
  {
    var r := ApplyUpdatePolicy(s, at, ts, p);
    assert PolicyOk(s.policies, p.id);
    if r.result.PolicyChanged? {
      PutPolicy(s.policies, r.result.policy);
      ConvertedOk(s, p.id, r.result.policy, ts);
    }
  }

  lemma KeepSetPolicyActive(s: AppState, at: Position, ts: Int64, p: Body)
    requires StoreOk(s) && p.SetPolicyActive?
    ensures StoreOk(ApplySetPolicyActive(s, at, ts, p).state)
  {
    var r := ApplySetPolicyActive(s, at, ts, p);
    assert PolicyOk(s.policies, p.id);
    if r.result.PolicyChanged? {
      PutPolicy(s.policies, r.result.policy);
      SameRate(s.buckets, s.policies, r.result.policy);
    }
  }

  lemma KeepCreateClient(s: AppState, at: Position, ts: Int64, p: Body)
    requires StoreOk(s) && p.CreateClient?
    ensures StoreOk(ApplyCreateClient(s, at, ts, p).state)
  {
    var r := ApplyCreateClient(s, at, ts, p);
    if r.result.ClientChanged? { AddClient(s.clients, s.prefixes, r.result.client); }
  }

  lemma AddClient(clients: map<Str, Client>, prefixes: map<Str, Str>, client: Client)
    requires ClientsOk(clients, prefixes) && client.id !in clients && client.keyPrefix !in prefixes
    ensures ClientsOk(clients[client.id := client], prefixes[client.keyPrefix := client.id])
  {
    var cs, ps := clients[client.id := client], prefixes[client.keyPrefix := client.id];
    forall id ensures ClientOk(cs, ps, id) { assert ClientOk(clients, prefixes, id); }
    forall q ensures PrefixOk(cs, ps, q) { assert PrefixOk(clients, prefixes, q); }
  }

  lemma KeepRevokeClient(s: AppState, at: Position, ts: Int64, p: Body)
    requires StoreOk(s) && p.RevokeClient?
    ensures StoreOk(ApplyRevokeClient(s, at, ts, p).state)
  {
    var s' := ApplyRevokeClient(s, at, ts, p).state;
    assert ClientOk(s.clients, s.prefixes, p.id);
    forall id ensures ClientOk(s'.clients, s'.prefixes, id) { assert ClientOk(s.clients, s.prefixes, id); }
    forall q ensures PrefixOk(s'.clients, s'.prefixes, q) { assert PrefixOk(s.clients, s.prefixes, q); }
  }

  lemma KeepCharge(s: AppState, at: Position, ts: Int64, p: Body)
    requires StoreOk(s) && p.Decide? && RequestOk(p) && |p.clientId| <= Encoding.MAX_KEY_PART
    requires Refusal(s, p).None? && ts >= 0
    ensures StoreOk(Charge(s, at, ts, p).state)
  {
    var s', policy := Charge(s, at, ts, p).state, s.policies[p.policyId];
    assert PolicyOk(s.policies, p.policyId);
    LoadedInRange(s, policy, p.subject, ts);
    var b := LoadBucket(s, policy, p.subject, ts);
    RefillIsExact(b, policy.rate, ts);
    SpendIsExact(Refill(b, policy.rate, ts), p.cost, policy.rate);
    forall k ensures BucketOk(s'.buckets, s'.policies, k) { assert BucketOk(s.buckets, s.policies, k); }
    forall k ensures RecordOk(s'.decisions, k) { assert RecordOk(s.decisions, k); }
  }

  lemma KeepPrune(s: AppState, ts: Int64, p: Body)
    requires StoreOk(s) && p.Prune?
    ensures StoreOk(ApplyPrune(s, ts, p).state)
  {
    var s' := ApplyPrune(s, ts, p).state;
    forall k ensures RecordOk(s'.decisions, k) { assert RecordOk(s.decisions, k); }
  }

  lemma KeepDecide(s: AppState, at: Position, ts: Int64, p: Body)
    requires StoreOk(s) && p.Decide? && ts >= 0 && ApplyDecide(s, at, ts, p).Applied?
    ensures StoreOk(ApplyDecide(s, at, ts, p).state)
  {
    if RequestOk(p) && (p.clientId, p.requestId) !in s.decisions && Refusal(s, p).None? { KeepCharge(s, at, ts, p); }
  }

  /** Every command keeps the store invariant. */
  lemma CommandKeepsStore(s: AppState, at: Position, cmd: Command)
    requires StoreOk(s) && cmd.timestamp >= 0 && ApplyCommand(s, at, cmd).Applied?
    ensures StoreOk(ApplyCommand(s, at, cmd).state)
  {
    var ts, p := cmd.timestamp, cmd.body;
    match p
    case CreatePolicy(_, _, _, _, _, _, _) => KeepCreatePolicy(s, at, ts, p);
    case UpdatePolicy(_, _, _, _, _, _, _) => KeepUpdatePolicy(s, at, ts, p);
    case SetPolicyActive(_, _, _) => KeepSetPolicyActive(s, at, ts, p);
    case CreateClient(_, _, _, _, _) => KeepCreateClient(s, at, ts, p);
    case RevokeClient(_) => KeepRevokeClient(s, at, ts, p);
    case Decide(_, _, _, _, _, _) => KeepDecide(s, at, ts, p);
    case Prune(_) => KeepPrune(s, ts, p);
  }

  // ---- over sequences of entries ----

  /** The leader's clock reading that an entry carries, if it carries a command, is not negative. */
  predicate Timely(e: LogEntry) { e.payload.Carries? ==> e.payload.command.timestamp >= 0 }

  /** Fold the state machine over entries; None once one fails to apply. */
  function Run(s: AppState, es: seq<LogEntry>): Option<AppState> {
    if |es| == 0 then Some(s)
    else
      match Run(s, es[..|es| - 1])
      case None => None
      case Some(t) =>
        match ApplyEntry(t, es[|es| - 1].index, es[|es| - 1].term, es[|es| - 1])
        case Applied(u, _) => Some(u)
        case Failed => None
  }

  lemma EntryKeepsStore(s: AppState, e: LogEntry)
    requires StoreOk(s) && Timely(e) && ApplyEntry(s, e.index, e.term, e).Applied?
    ensures StoreOk(ApplyEntry(s, e.index, e.term, e).state)
  {
    match e.payload
    case Carries(cmd) => CommandKeepsStore(s, Position(e.index, e.term), cmd);
    case Sentinel =>
    case Noop =>
  }

  /** The store invariant holds after every log. */
  lemma {:induction false} StoreAlwaysOk(s: AppState, es: seq<LogEntry>)
    requires StoreOk(s) && (forall e :: e in es ==> Timely(e)) && Run(s, es).Some?
    ensures StoreOk(Run(s, es).value)
  {
    if |es| == 0 {
    } else {
      var rest, e := es[..|es| - 1], es[|es| - 1];
      StoreAlwaysOk(s, rest);
      EntryKeepsStore(Run(s, rest).value, e);
    }
  }

  lemma {:induction false} RunConcat(s: AppState, a: seq<LogEntry>, b: seq<LogEntry>)
    ensures Run(s, a + b) == match Run(s, a) case None => None case Some(t) => Run(t, b)
  {
    if |b| == 0 {
      assert a + b == a;
    } else {
      var rest := b[..|b| - 1];
      assert (a + b)[..|a + b| - 1] == a + rest;
      RunConcat(s, a, rest);
    }
  }

  /** A log up to j: everything before i, then entry i, then the rest. */
  lemma RunSplit(s: AppState, es: seq<LogEntry>, i: nat, j: nat)
    requires i < j <= |es|
    ensures Run(s, es[..j]) ==
              match Run(s, es[..i])
              case None => None
              case Some(t) =>
                match ApplyEntry(t, es[i].index, es[i].term, es[i])
                case Failed => None
                case Applied(u, _) => Run(u, es[i + 1..j])
  {
    assert es[..i + 1][..i] == es[..i] && es[..j] == es[..i + 1] + es[i + 1..j];
    RunConcat(s, es[..i + 1], es[i + 1..j]);
  }
}
