/**
  What each command answers, in every state: each rejection code has its condition, as an
  if-and-only-if over the tables, and an accepted command stores exactly what was asked
  for.  The conditional changes of a policy are in CommandLaws.dfy.
 */
module CommandOutcomes {
  import opened Models
  import Encoding
  import Pruning
  import opened Validation
  import opened StateMachine
  import opened StoreInvariant
  import opened Idempotency

  // ---- decisions ----

  /** A well-formed request that is not on record. */
  ghost predicate Unseen(s: AppState, p: Body)
    requires p.Decide?
  {
    RequestOk(p) && |p.clientId| <= Encoding.MAX_KEY_PART && (p.clientId, p.requestId) !in s.decisions
  }

  ghost predicate ActiveClient(s: AppState, id: Str) { id in s.clients && s.clients[id].active }

  /** The client's list names the policy, or everything. */
  ghost predicate MayUse(s: AppState, client: Str, policy: Str) {
    && ActiveClient(s, client)
    && (policy in s.clients[client].allowedPolicies || WILDCARD in s.clients[client].allowedPolicies)
  }

  ghost predicate ActivePolicy(s: AppState, id: Str) { id in s.policies && s.policies[id].active }

  lemma MayUseIs(c: Client, policyId: Str)
    ensures AllowsPolicy(c, policyId) <==> policyId in c.allowedPolicies || WILDCARD in c.allowedPolicies
  {
  }

  /** A request is refused for the first of these reasons that applies, and no other. */
  lemma FreshRefusals(s: AppState, e: LogEntry)
    requires e.payload.Carries? && e.payload.command.body.Decide? && Unseen(s, e.payload.command.body)
    ensures Step(s, e).Applied?
    ensures var p, r := e.payload.command.body, Step(s, e).result;
            && (r == Rejected(ClientNotFound) <==> p.clientId !in s.clients)
            && (r == Rejected(ClientIsRevoked) <==> p.clientId in s.clients && !s.clients[p.clientId].active)
            && (r == Rejected(ForbiddenPolicy) <==> ActiveClient(s, p.clientId) && !MayUse(s, p.clientId, p.policyId))
            && (r == Rejected(PolicyNotFound) <==> MayUse(s, p.clientId, p.policyId) && p.policyId !in s.policies)
            && (r == Rejected(PolicyInactive) <==>
                  MayUse(s, p.clientId, p.policyId) && p.policyId in s.policies && !s.policies[p.policyId].active)
            && (r == Rejected(ValidationFailed) <==>
                  && MayUse(s, p.clientId, p.policyId) && ActivePolicy(s, p.policyId)
                  && p.cost > s.policies[p.policyId].rate.maxCost)
            && (r.Decided? && !r.duplicate <==>
                  && MayUse(s, p.clientId, p.policyId) && ActivePolicy(s, p.policyId)
                  && p.cost <= s.policies[p.policyId].rate.maxCost)
  {
    var p := e.payload.command.body;
    if p.clientId in s.clients { MayUseIs(s.clients[p.clientId], p.policyId); }
  }

  /** A request that is malformed, too long for a key, or on record. */
  lemma SeenRefusals(s: AppState, e: LogEntry)
    requires RecordsOk(s.decisions) && e.payload.Carries? && e.payload.command.body.Decide?
    requires !Unseen(s, e.payload.command.body)
    ensures var p, key := e.payload.command.body, KeyAsked(e);
            && (Step(s, e) == Failed <==> RequestOk(p) && |p.clientId| > Encoding.MAX_KEY_PART)
            && (Step(s, e) == Applied(s, Rejected(ValidationFailed)) <==> !RequestOk(p))
            && (key in s.decisions && Step(s, e).Applied? && RequestOk(p) ==>
                  Step(s, e) == Applied(s, if SameContent(s.decisions[key], p) then Decided(s.decisions[key], true)
                                           else Rejected(IdempotencyConflict)))
  {
    if KeyAsked(e) in s.decisions { RetryAnswer(s, e, KeyAsked(e)); }
  }

  function KeyAsked(e: LogEntry): RequestKey
    requires e.payload.Carries? && e.payload.command.body.Decide?
  {
    (e.payload.command.body.clientId, e.payload.command.body.requestId)
  }

  // ---- new policies ----

  predicate PolicyAsked(p: Body)
    requires p.CreatePolicy?
  {
    && ValidPolicyId(p.id) && ValidateName(p.name, MAX_POLICY_NAME).Some?
    && PolicyFieldsOk(p.capacity, p.refill, p.interval, p.maxCost)
  }

  /** A policy is created exactly when it is valid and its id is free: at version 1, as asked for. */
  lemma PolicyCreations(s: AppState, e: LogEntry)
    requires e.payload.Carries? && e.payload.command.body.CreatePolicy?
    ensures Step(s, e).Applied?
    ensures var p, ts, x := e.payload.command.body, e.payload.command.timestamp, Step(s, e);
            && (x.result == Rejected(ValidationFailed) <==> !PolicyAsked(p))
            && (x.result == Rejected(PolicyExists) <==> PolicyAsked(p) && p.id in s.policies)
            && (x.result.PolicyChanged? <==> PolicyAsked(p) && p.id !in s.policies)
            && (x.result.PolicyChanged? ==>
                  var q := x.result.policy;
                  && x.state == s.(policies := s.policies[p.id := q], audits := x.state.audits)
                  && q.id == p.id && Some(q.name) == ValidateName(p.name, MAX_POLICY_NAME)
                  && (q.rate.capacity, q.rate.refill) == (p.capacity, p.refill)
                  && (q.rate.interval, q.rate.maxCost) == (p.interval, p.maxCost)
                  && q.active == p.active && q.version == 1 && q.createdAt == q.updatedAt == ts)
  {
  }

  // ---- clients ----

  predicate ClientAsked(p: Body)
    requires p.CreateClient?
  {
    && ValidateName(p.name, MAX_CLIENT_NAME).Some? && AllowedPoliciesOk(p.allowedPolicies)
    && p.id != [] && p.keyPrefix != [] && p.keyDigest != []
  }

  /** Every policy it names exists; the wildcard alone names none. */
  ghost predicate NamesKnown(s: AppState, ids: seq<Str>) {
    ids == [WILDCARD] || forall id :: id in ids ==> id in s.policies
  }

  /** A client is created exactly when it is valid, its id and key prefix are free and the
      policies it names exist; its key prefix then leads to it. */
  lemma ClientCreations(s: AppState, e: LogEntry)
    requires e.payload.Carries? && e.payload.command.body.CreateClient?
    ensures Step(s, e).Applied?
    ensures var p, x := e.payload.command.body, Step(s, e);
            && (x.result == Rejected(ValidationFailed) <==> !ClientAsked(p))
            && (x.result == Rejected(ClientExists) <==> ClientAsked(p) && p.id in s.clients)
            && (x.result == Rejected(KeyPrefixConflict) <==>
                  ClientAsked(p) && p.id !in s.clients && p.keyPrefix in s.prefixes)
            && (x.result == Rejected(PolicyNotFound) <==>
                  && ClientAsked(p) && p.id !in s.clients && p.keyPrefix !in s.prefixes
                  && !NamesKnown(s, p.allowedPolicies))
            && (x.result.ClientChanged? <==>
                  && ClientAsked(p) && p.id !in s.clients && p.keyPrefix !in s.prefixes
                  && NamesKnown(s, p.allowedPolicies))
            && (x.result.ClientChanged? ==> Admitted(s, p, e.payload.command.timestamp, x))
  {
    var p := e.payload.command.body;
    assert Known(s.policies, p.allowedPolicies) <==> forall id :: id in p.allowedPolicies ==> id in s.policies;
  }

  ghost predicate Admitted(s: AppState, p: Body, ts: Int64, x: Applied)
    requires p.CreateClient? && x.Applied? && x.result.ClientChanged?
  {
    var q := x.result.client;
    && x.state == s.(clients := s.clients[p.id := q], prefixes := s.prefixes[p.keyPrefix := p.id],
                     audits := x.state.audits)
    && !x.result.duplicate && q.id == p.id && Some(q.name) == ValidateName(p.name, MAX_CLIENT_NAME)
    && q.keyPrefix == p.keyPrefix && q.keyDigest == p.keyDigest && q.allowedPolicies == p.allowedPolicies
    && q.active && q.createdAt == ts && q.revokedAt == None
  }

  /** A client is revoked exactly when it exists: once, at that time; a repeat changes nothing. */
  lemma Revocations(s: AppState, e: LogEntry)
    requires ClientsOk(s.clients, s.prefixes) && e.payload.Carries? && e.payload.command.body.RevokeClient?
    ensures Step(s, e).Applied?
    ensures var id, ts, x := e.payload.command.body.id, e.payload.command.timestamp, Step(s, e);
            && (x.result == Rejected(ClientNotFound) <==> id !in s.clients)
            && (x.result.ClientChanged? <==> id in s.clients)
            && (ActiveClient(s, id) ==>
                  var q := s.clients[id].(active := false, revokedAt := Some(ts));
                  && x.result == ClientChanged(q, false)
                  && x.state == s.(clients := s.clients[id := q], audits := x.state.audits))
            && (id in s.clients && !s.clients[id].active ==> x == Applied(s, ClientChanged(s.clients[id], true)))
  {
    assert ClientOk(s.clients, s.prefixes, e.payload.command.body.id);
  }

  // ---- pruning ----

  lemma {:induction false} Oldest(a: set<nat>) returns (m: nat)
    requires a != {}
    ensures m in a && forall i :: i in a ==> m <= i
  {
    var x :| x in a;
    if a == {x} {
      m := x;
    } else {
      var o := Oldest(a - {x});
      m := if o < x then o else x;
      assert forall i :: i in a ==> i == x || i in a - {x};
    }
  }

  lemma {:induction false} NewestCount(a: map<nat, Audit>, keep: nat)
    ensures |Newest(a, keep)| == if |a| <= keep then |a| else keep
    decreases |a|
  {
    if a == map[] {
      assert Newest(a, keep) == {};
    } else {
      var m := Oldest(a.Keys);
      var rest := a - {m};
      NewestCount(rest, keep);
      assert |rest| == |a| - 1;
      NewestButOldest(a, m, rest, keep);
    }
  }

  lemma NewestButOldest(a: map<nat, Audit>, m: nat, rest: map<nat, Audit>, keep: nat)
    requires m in a && rest == a - {m} && forall i :: i in a ==> m <= i
    ensures Newest(a, keep) == Newest(rest, keep) + (if |rest| < keep then {m} else {}) && m !in Newest(rest, keep)
  {
    assert Newer(a, m) == rest.Keys && |rest| == |rest.Keys|;
    forall i | i in rest ensures Newer(rest, i) == Newer(a, i) { }
  }

  lemma Dropped<K, V>(m: map<K, V>, kept: map<K, V>)
    requires kept.Keys <= m.Keys
    ensures |m.Keys - kept.Keys| == |m| - |kept|
  {
    assert m.Keys == kept.Keys + (m.Keys - kept.Keys);
    assert |m| == |m.Keys| && |kept| == |kept.Keys|;
  }

  /** What a prune leaves of the audits: as many as asked for, and all of them newer than any it drops. */
  ghost predicate NewestLeft(before: map<nat, Audit>, after: map<nat, Audit>, keep: nat) {
    && (forall i :: i in after ==> i in before && after[i] == before[i])
    && |after| == (if |before| <= keep then |before| else keep)
    && (forall i, j :: i in after && j in before && j !in after ==> j < i)
  }

  ghost predicate LiveLeft(before: map<RequestKey, Decision>, after: map<RequestKey, Decision>, ts: Int64) {
    && (forall k :: k in after <==> k in before && before[k].expiresAt > ts)
    && (forall k :: k in after ==> after[k] == before[k])
  }

  lemma AuditsLeft(a: map<nat, Audit>, keep: nat)
    ensures NewestLeft(a, map i | i in Newest(a, keep) :: a[i], keep)
  {
    var after := map i | i in Newest(a, keep) :: a[i];
    NewestCount(a, keep);
    assert after.Keys == Newest(a, keep) && |after| == |after.Keys|;
    forall i, j | i in after && j in a && j !in after ensures j < i { Pruning.KeptAreNewer(a, keep, i, j); }
  }

  /** A prune keeps exactly the unexpired records and the newest audits, as many as asked
      for or 100000, changes nothing else, and reports how many of each it dropped. */
  lemma Prunings(s: AppState, ts: Int64, p: Body)
    requires p.Prune?
    ensures var x := ApplyPrune(s, ts, p);
            && x.state == s.(decisions := x.state.decisions, audits := x.state.audits)
            && LiveLeft(s.decisions, x.state.decisions, ts)
            && NewestLeft(s.audits, x.state.audits, if p.auditKeepMax <= 0 then 100_000 else p.auditKeepMax)
            && x.result.Pruned? && x.result.idempotencyRemoved == |s.decisions| - |x.state.decisions|
            && x.result.auditRemoved == |s.audits| - |x.state.audits|
  {
    var x := ApplyPrune(s, ts, p);
    AuditsLeft(s.audits, KeepMax(p));
    assert x.state.audits.Keys == Newest(s.audits, KeepMax(p));
    assert x.state.decisions.Keys == Live(s.decisions, ts);
    Dropped(s.decisions, x.state.decisions);
    Dropped(s.audits, x.state.audits);
  }
}
