/**
  What callers may rely on, command by command and over whole logs: rejections
  change nothing, fresh decisions are authorized, revocation is final, policy
  versions only rise, and every change leaves one audit under its log index.
 */
module CommandLaws {
  import opened Models
  import BucketLaws
  import Encoding
  import opened Int64Math
  import opened TokenBucket
  import opened Validation
  import opened StateMachine
  import opened StoreInvariant
  import opened Idempotency

  // ---- rejections ----

  /** A business rejection, a repeated request or a repeated revocation leaves the state alone. */
  predicate ChangesNothing(r: Result) {
    r.Rejected? || r.Skipped? || (r.Decided? && r.duplicate) || (r.ClientChanged? && r.duplicate)
  }

  ghost predicate LeavesAlone(s: AppState, x: Applied) { x.Applied? && ChangesNothing(x.result) ==> x.state == s }

  lemma PolicyRejections(s: AppState, at: Position, ts: Int64, p: Body)
    ensures p.CreatePolicy? ==> LeavesAlone(s, ApplyCreatePolicy(s, at, ts, p))
    ensures p.UpdatePolicy? ==> LeavesAlone(s, ApplyUpdatePolicy(s, at, ts, p))
    ensures p.SetPolicyActive? ==> LeavesAlone(s, ApplySetPolicyActive(s, at, ts, p))
  {
  }

  lemma ClientRejections(s: AppState, at: Position, ts: Int64, p: Body)
    ensures p.CreateClient? ==> LeavesAlone(s, ApplyCreateClient(s, at, ts, p))
    ensures p.RevokeClient? ==> LeavesAlone(s, ApplyRevokeClient(s, at, ts, p))
  {
  }

  lemma RejectionsChangeNothing(s: AppState, e: LogEntry)
    requires Step(s, e).Applied? && ChangesNothing(Step(s, e).result)
    ensures Step(s, e).state == s
  {
    if e.payload.Carries? {
      var at, ts, p := Position(e.index, e.term), e.payload.command.timestamp, e.payload.command.body;
      PolicyRejections(s, at, ts, p);
      ClientRejections(s, at, ts, p);
    }
  }

  // ---- decisions ----

  /** Client, policy and cost all admit the request. */
  ghost predicate Authorized(s: AppState, p: Body)
    requires p.Decide?
  {
    && p.clientId in s.clients && s.clients[p.clientId].active && AllowsPolicy(s.clients[p.clientId], p.policyId)
    && p.policyId in s.policies && s.policies[p.policyId].active
    && 1 <= p.cost <= s.policies[p.policyId].rate.maxCost
  }

  /** The bucket that a decision leaves: its balance, its clock, and where it was last touched. */
  ghost predicate Stored(s': AppState, p: Body, policy: Policy, before: Bucket, d: Decision)
    requires p.Decide?
  {
    && (p.policyId, p.subject) in s'.buckets
    && var b := s'.buckets[(p.policyId, p.subject)];
    && b.tokens == d.remaining && b.remainder == before.remainder && b.lastRefill == before.lastRefill
    && b.policyVersion == policy.version && b.updatedIndex == d.logIndex
  }

  /** A request is decided afresh exactly when it is well-formed, new and authorized; its
      verdict is whether the refilled bucket holds the cost, and the record says so. */
  lemma FreshDecisions(s: AppState, e: LogEntry)
    requires StoreOk(s) && Timely(e) && e.payload.Carries? && e.payload.command.body.Decide?
    requires |e.payload.command.body.clientId| <= Encoding.MAX_KEY_PART
    ensures var p, ts := e.payload.command.body, e.payload.command.timestamp;
            && Step(s, e).Applied?
            && var r := Step(s, e).result;
            && ((r.Decided? && !r.duplicate) <==>
                  RequestOk(p) && (p.clientId, p.requestId) !in s.decisions && Authorized(s, p))
            && (r.Decided? && !r.duplicate ==>
                  var policy := s.policies[p.policyId];
                  var before := Refill(LoadBucket(s, policy, p.subject, ts), policy.rate, ts);
                  && (r.decision.allowed <==> before.tokens >= p.cost * MILLI)
                  && r.decision.remaining == before.tokens - (if r.decision.allowed then p.cost * MILLI else 0)
                  && (r.decision.allowed <==> r.decision.retryAfter == 0)
                  && SameContent(r.decision, p) && r.decision.logIndex == e.index && r.decision.leaderTerm == e.term
                  && r.decision.observedAt == ts && Stored(Step(s, e).state, p, policy, before, r.decision)
                  && (ts + IDEMPOTENCY_TTL <= INT64_MAX ==> r.decision.expiresAt == ts + IDEMPOTENCY_TTL))
  {
    var p, ts := e.payload.command.body, e.payload.command.timestamp;
    if RequestOk(p) && (p.clientId, p.requestId) !in s.decisions && Refusal(s, p).None? {
      FreshVerdict(s, ts, p);
      if ts + IDEMPOTENCY_TTL <= INT64_MAX { WrapFits(ts + IDEMPOTENCY_TTL); }
    }
  }

  lemma FreshVerdict(s: AppState, ts: Int64, p: Body)
    requires StoreOk(s) && ts >= 0 && p.Decide? && RequestOk(p) && Refusal(s, p).None?
    ensures var before := Refill(LoadBucket(s, s.policies[p.policyId], p.subject, ts), s.policies[p.policyId].rate, ts);
            var spent := SpendingFor(s, ts, p);
            && (spent.allowed <==> before.tokens >= p.cost * MILLI)
            && spent.bucket.tokens == before.tokens - (if spent.allowed then p.cost * MILLI else 0)
            && (spent.allowed <==> spent.retryAfter == 0)
            && spent.bucket == before.(tokens := spent.bucket.tokens)
            && spent.bucket.policyId == p.policyId && spent.bucket.subject == p.subject
  {
    var policy := s.policies[p.policyId];
    assert PolicyOk(s.policies, p.policyId);
    LoadedInRange(s, policy, p.subject, ts);
    var b := LoadBucket(s, policy, p.subject, ts);
    RefillIsExact(b, policy.rate, ts);
    BucketLaws.SpendIsExact(Refill(b, policy.rate, ts), p.cost, policy.rate);
    if Refill(b, policy.rate, ts).tokens < p.cost * MILLI {
      BucketLaws.RetryIsCeiling(Refill(b, policy.rate, ts), p.cost, policy.rate);
    }
  }

  // ---- revocation ----

  ghost predicate Revoked(s: AppState, id: Str) { id in s.clients && !s.clients[id].active }

  lemma StaysRevoked(s: AppState, e: LogEntry, id: Str)
    requires StoreOk(s) && Revoked(s, id) && Step(s, e).Applied?
    ensures Revoked(Step(s, e).state, id)
  {
    if e.payload.Carries? {
      var at, ts, p := Position(e.index, e.term), e.payload.command.timestamp, e.payload.command.body;
      if p.RevokeClient? {
        assert ClientOk(s.clients, s.prefixes, p.id);
      } else if p.CreateClient? {
        NewClientKeepsOthers(s, at, ts, p, id);
      } else {
        OthersKeepClients(s, at, ts, p, id);
      }
    }
  }

  lemma OthersKeepClients(s: AppState, at: Position, ts: Int64, p: Body, id: Str)
    ensures p.CreatePolicy? ==> ApplyCreatePolicy(s, at, ts, p).state.clients == s.clients
    ensures p.UpdatePolicy? ==> ApplyUpdatePolicy(s, at, ts, p).state.clients == s.clients
    ensures p.SetPolicyActive? ==> ApplySetPolicyActive(s, at, ts, p).state.clients == s.clients
  {
  }

  lemma NewClientKeepsOthers(s: AppState, at: Position, ts: Int64, p: Body, id: Str)
    requires id in s.clients && p.CreateClient?
    ensures var s' := ApplyCreateClient(s, at, ts, p).state; id in s'.clients && s'.clients[id] == s.clients[id]
  {
    assert ClientRefusal(s, p).None? ==> p.id != id;
  }

  /** Once a client is revoked, no later entry of any log is decided afresh for it. */
  lemma {:induction false} RevocationIsFinal(s: AppState, es: seq<LogEntry>, id: Str, next: LogEntry)
    requires StoreOk(s) && Revoked(s, id) && (forall e :: e in es ==> Timely(e)) && Run(s, es).Some?
    requires Step(Run(s, es).value, next).Applied?
    ensures Revoked(Run(s, es).value, id)
    ensures var r := Step(Run(s, es).value, next).result; r.Decided? && !r.duplicate ==> r.decision.clientId != id
  {
    StillRevoked(s, es, id);
    var t := Run(s, es).value;
    if Step(t, next).result.Decided? && !Step(t, next).result.duplicate { AcceptedIsRecorded(t, next); }
  }

  lemma {:induction false} StillRevoked(s: AppState, es: seq<LogEntry>, id: Str)
    requires StoreOk(s) && Revoked(s, id) && (forall e :: e in es ==> Timely(e)) && Run(s, es).Some?
    ensures Revoked(Run(s, es).value, id)
  {
    if |es| == 0 {
    } else {
      var rest, e := es[..|es| - 1], es[|es| - 1];
      StillRevoked(s, rest, id);
      StoreAlwaysOk(s, rest);
      StaysRevoked(Run(s, rest).value, e, id);
    }
  }

  // ---- policy versions ----

  /** A policy stays, keeps its identity, and any change to it is one version up. */
  ghost predicate NextVersion(before: Policy, after: Policy) {
    after == before ||
    (after.version == before.version + 1 && after.id == before.id && after.createdAt == before.createdAt)
  }

  ghost predicate Advances(s: AppState, s': AppState, id: Str) {
    id in s.policies ==> id in s'.policies && NextVersion(s.policies[id], s'.policies[id])
  }

  lemma PolicyMoves(s: AppState, at: Position, ts: Int64, p: Body, id: Str)
    requires StoreOk(s) && id in s.policies
    ensures p.CreatePolicy? ==> Advances(s, ApplyCreatePolicy(s, at, ts, p).state, id)
    ensures p.UpdatePolicy? ==> Advances(s, ApplyUpdatePolicy(s, at, ts, p).state, id)
    ensures p.SetPolicyActive? ==> Advances(s, ApplySetPolicyActive(s, at, ts, p).state, id)
  {
    assert PolicyOk(s.policies, id);
    if p.UpdatePolicy? || p.SetPolicyActive? { assert PolicyOk(s.policies, p.id); }
  }

  lemma VersionsRise(s: AppState, e: LogEntry, id: Str)
    requires StoreOk(s) && id in s.policies && Step(s, e).Applied?
    ensures id in Step(s, e).state.policies && NextVersion(s.policies[id], Step(s, e).state.policies[id])
  {
    if e.payload.Carries? {
      PolicyMoves(s, Position(e.index, e.term), e.payload.command.timestamp, e.payload.command.body, id);
    }
  }

  lemma {:induction false} VersionsOnlyRise(s: AppState, es: seq<LogEntry>, id: Str)
    requires StoreOk(s) && id in s.policies && (forall e :: e in es ==> Timely(e)) && Run(s, es).Some?
    ensures id in Run(s, es).value.policies && Run(s, es).value.policies[id].version >= s.policies[id].version
  {
    if |es| == 0 {
    } else {
      var rest, e := es[..|es| - 1], es[|es| - 1];
      VersionsOnlyRise(s, rest, id);
      StoreAlwaysOk(s, rest);
      VersionsRise(Run(s, rest).value, e, id);
    }
  }

  /** An update or (de)activation of a policy, expecting a version. */
  ghost predicate Expects(e: LogEntry, id: Str, version: nat) {
    && e.payload.Carries?
    && var p := e.payload.command.body;
    (p.UpdatePolicy? && p.id == id && p.expectedVersion == version)
    || (p.SetPolicyActive? && p.id == id && p.expectedVersion == version)
  }

  /** The change itself is sound: an activation always is, an update if its fields are valid. */
  predicate Sound(p: Body) {
    p.UpdatePolicy? ==>
      ValidateName(p.name, MAX_POLICY_NAME).Some? && PolicyFieldsOk(p.capacity, p.refill, p.interval, p.maxCost)
  }

  /** A conditional change is applied exactly when the policy is there at that version and
      the change is sound; each refusal has its own condition. */
  lemma ConditionalChange(s: AppState, e: LogEntry, id: Str, version: nat)
    requires StoreOk(s) && Expects(e, id, version)
    ensures Step(s, e).Applied?
    ensures var r, p := Step(s, e).result, e.payload.command.body;
            && (r == Rejected(PolicyNotFound) <==> id !in s.policies)
            && (r == Rejected(VersionConflict) <==> id in s.policies && s.policies[id].version != version)
            && (r == Rejected(ValidationFailed) <==> id in s.policies && s.policies[id].version == version && !Sound(p))
            && (r.PolicyChanged? <==> id in s.policies && s.policies[id].version == version && Sound(p))
            && (r.PolicyChanged? ==> Changed(s, p, e.payload.command.timestamp, id, r.policy, Step(s, e).state))
  {
    assert PolicyOk(s.policies, id);
  }

  /** The stored and reported policy is what the caller asked for, one version up, and keeps
      the rest: an update sets name and rate and leaves activity alone, an activation the reverse. */
  ghost predicate Changed(s: AppState, p: Body, ts: Int64, id: Str, after: Policy, s': AppState) {
    && id in s.policies && s'.policies == s.policies[id := after]
    && var before := s.policies[id];
    && after.id == id && after.version == before.version + 1
    && after.createdAt == before.createdAt && after.updatedAt == ts
    && (p.UpdatePolicy? ==> && after.active == before.active
                            && Some(after.name) == ValidateName(p.name, MAX_POLICY_NAME)
                            && (after.rate.capacity, after.rate.refill) == (p.capacity, p.refill)
                            && (after.rate.interval, after.rate.maxCost) == (p.interval, p.maxCost))
    && (p.SetPolicyActive? ==> && after == before.(active := p.active, version := after.version, updatedAt := ts)
                               && s'.buckets == s.buckets)
    && s'.clients == s.clients && s'.prefixes == s.prefixes && s'.decisions == s.decisions
  }

  /** Optimistic locking: of two changes in a log that expect the same version of a
      policy, once one is applied the other is refused. */
  lemma OneChangePerVersion(es: seq<LogEntry>, i: nat, j: nat, id: Str, version: nat)
    requires i < j < |es| && (forall e :: e in es ==> Timely(e)) && Expects(es[i], id, version)
    requires Expects(es[j], id, version)
    requires Run(EMPTY_STATE, es[..i]).Some? && Run(EMPTY_STATE, es[..j]).Some?
    requires Step(Run(EMPTY_STATE, es[..i]).value, es[i]).Applied?
    requires Step(Run(EMPTY_STATE, es[..i]).value, es[i]).result.PolicyChanged?
    ensures var s := Run(EMPTY_STATE, es[..j]).value; Step(s, es[j]) == Applied(s, Rejected(VersionConflict))
  {
    var s, t := Run(EMPTY_STATE, es[..i]).value, Run(EMPTY_STATE, es[..j]).value;
    EmptyStoreOk();
    StoreAlwaysOk(EMPTY_STATE, es[..i]);
    StoreAlwaysOk(EMPTY_STATE, es[..j]);
    RunSplit(EMPTY_STATE, es, i, j);
    ConditionalChange(s, es[i], id, version);
    assert es[i] in es;
    EntryKeepsStore(s, es[i]);
    VersionsOnlyRise(Step(s, es[i]).state, es[i + 1..j], id);
    ConditionalChange(t, es[j], id, version);
    RejectionsChangeNothing(t, es[j]);
  }

  // ---- audits ----

  /** The kind of event that a command leaves. */
  function EventOf(p: Body): Event {
    match p
    case CreatePolicy(_, _, _, _, _, _, _) => PolicyCreated
    case UpdatePolicy(_, _, _, _, _, _, _) => PolicyUpdated
    case SetPolicyActive(_, active, _) => if active then PolicyActivated else PolicyDeactivated
    case CreateClient(_, _, _, _, _) => ClientCreated
    case RevokeClient(_) => ClientRevoked
    case _ => DecisionMade
  }

  /** The audit tells what happened, when and where, and of a decision all that its record tells. */
  ghost predicate Tells(a: Audit, at: Position, ts: Int64, p: Body, r: Result) {
    && a.logIndex == at.index && a.term == at.term && a.timestamp == ts && a.event == EventOf(p)
    && (r.PolicyChanged? ==> a.policyId == r.policy.id)
    && (r.Decided? ==>
          && a.actorId == r.decision.clientId && a.requestId == r.decision.requestId
          && a.policyId == r.decision.policyId && a.allowed == r.decision.allowed
          && a.cost == r.decision.cost && a.remaining == r.decision.remaining
          && p.Decide? && a.actorType == (if p.actorType == [] then CLIENT_ACTOR else p.actorType))
    && (!r.Decided? ==> a.actorType == ADMIN_ACTOR && a.actorId == ADMIN_ACTOR)
  }

  /** One audit more, under the entry's index. */
  ghost predicate Audits(s: AppState, at: Position, ts: Int64, p: Body, x: Applied)
    requires x.Applied?
  {
    && at.index in x.state.audits && Tells(x.state.audits[at.index], at, ts, p, x.result)
    && x.state.audits == s.audits[at.index := x.state.audits[at.index]]
  }

  ghost predicate Audited(s: AppState, at: Position, ts: Int64, p: Body, x: Applied) {
    x.Applied? && !ChangesNothing(x.result) && !x.result.Pruned? ==> Audits(s, at, ts, p, x)
  }

  lemma CreationAudits(s: AppState, at: Position, ts: Int64, p: Body)
    ensures p.CreatePolicy? ==> Audited(s, at, ts, p, ApplyCreatePolicy(s, at, ts, p))
  {
  }

  lemma ActivationAudits(s: AppState, at: Position, ts: Int64, p: Body)
    ensures p.SetPolicyActive? ==> Audited(s, at, ts, p, ApplySetPolicyActive(s, at, ts, p))
  {
  }

  lemma UpdateAudits(s: AppState, at: Position, ts: Int64, p: Body)
    ensures p.UpdatePolicy? ==> Audited(s, at, ts, p, ApplyUpdatePolicy(s, at, ts, p))
  {
  }

  lemma ClientAudits(s: AppState, at: Position, ts: Int64, p: Body)
    ensures p.CreateClient? ==> Audited(s, at, ts, p, ApplyCreateClient(s, at, ts, p))
    ensures p.RevokeClient? ==> Audited(s, at, ts, p, ApplyRevokeClient(s, at, ts, p))
  {
  }

  lemma DecisionAudits(s: AppState, at: Position, ts: Int64, p: Body)
    requires p.Decide?
    ensures Audited(s, at, ts, p, ApplyDecide(s, at, ts, p))
  {
  }

  /** Every entry that changes the state, pruning apart, leaves exactly one audit, of its own kind. */
  lemma EveryChangeIsAudited(s: AppState, e: LogEntry)
    requires Step(s, e).Applied? && !ChangesNothing(Step(s, e).result) && !Step(s, e).result.Pruned?
    ensures e.payload.Carries?
    ensures Audits(s, Position(e.index, e.term), e.payload.command.timestamp, e.payload.command.body, Step(s, e))
  {
    var at, ts, p := Position(e.index, e.term), e.payload.command.timestamp, e.payload.command.body;
    if p.Decide? {
      DecisionAudits(s, at, ts, p);
    } else {
      CreationAudits(s, at, ts, p);
      ActivationAudits(s, at, ts, p);
      UpdateAudits(s, at, ts, p);
      ClientAudits(s, at, ts, p);
    }
  }
}
