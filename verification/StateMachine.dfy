/**
  The deterministic limiter: what each of the seven commands does to the
  application state, and what it reports.  StateMachineTx.dfy runs the same
  commands in place on the byte-keyed store.
 */
module StateMachine {
  import opened Models
  import Encoding
  import opened Int64Math
  import opened TokenBucket
  import opened Validation

  const IDEMPOTENCY_TTL: int := 24 * 60 * 60 * 1000
  const DEFAULT_AUDIT_KEEP: nat := 100_000

  const CLIENT_ACTOR: Str := [99, 108, 105, 101, 110, 116]  // "client"
  const ADMIN_ACTOR: Str := [97, 100, 109, 105, 110]        // "admin"

  /** Where in the log a command was committed. */
  datatype Position = Position(index: nat, term: nat)

  function Reject(s: AppState, code: RejectCode): Applied { Applied(s, Rejected(code)) }

  function AdminAudit(s: AppState, at: Position, event: Event, policyId: Str, ts: Int64): AppState {
    s.(audits := s.audits[at.index :=
      Audit(event, ts, ADMIN_ACTOR, ADMIN_ACTOR, [], policyId, false, 0, 0, at.term, at.index)])
  }

  // ---- policies ----

  /** The reason to turn a new policy away, if there is one. */
  function PolicyRefusal(s: AppState, p: Body): Option<RejectCode>
    requires p.CreatePolicy?
  {
    if !ValidPolicyId(p.id) || ValidateName(p.name, MAX_POLICY_NAME).None?
       || !PolicyFieldsOk(p.capacity, p.refill, p.interval, p.maxCost) then Some(ValidationFailed)
    else if p.id in s.policies then Some(PolicyExists)
    else None
  }

  function NewPolicy(p: Body, ts: Int64): Policy
    requires p.CreatePolicy? && ValidateName(p.name, MAX_POLICY_NAME).Some?
    requires PolicyFieldsOk(p.capacity, p.refill, p.interval, p.maxCost)
  {
    Policy(p.id, ValidateName(p.name, MAX_POLICY_NAME).value, Rate(p.capacity, p.refill, p.interval, p.maxCost),
           p.active, 1, ts, ts)
  }

  function ApplyCreatePolicy(s: AppState, at: Position, ts: Int64, p: Body): Applied
    requires p.CreatePolicy?
  {
    var refusal := PolicyRefusal(s, p);
    if refusal.Some? then Reject(s, refusal.value)
    else
      var policy := NewPolicy(p, ts);
      Applied(AdminAudit(s.(policies := s.policies[p.id := policy]), at, PolicyCreated, p.id, ts),
              PolicyChanged(policy))
  }

  /** Carry a bucket across a policy change: earn under the old rate up to the update,
      clamp to the new capacity, and drop the remainder if the interval changed. */
  function Convert(b: Bucket, before: Rate, after: Rate, ts: Int64, version: nat): Bucket {
    var c := Refill(b, before, ts);
    var cap := Wrap(after.capacity * MILLI);
    c.(tokens := if c.tokens > cap then cap else c.tokens,
       remainder := if before.interval != after.interval then 0 else c.remainder,
       policyVersion := version)
  }

  function ConvertAll(
    buckets: map<(Str, Str), Bucket>, id: Str, before: Rate, after: Rate, ts: Int64, version: nat)
    : map<(Str, Str), Bucket>
  {
    map k | k in buckets :: if k.0 == id then Convert(buckets[k], before, after, ts, version) else buckets[k]
  }

  /** The reason to turn an update away, if there is one. */
  function UpdateRefusal(s: AppState, p: Body): Option<RejectCode>
    requires p.UpdatePolicy?
  {
    if p.id !in s.policies then Some(PolicyNotFound)
    else if s.policies[p.id].version != p.expectedVersion then Some(VersionConflict)
    else if ValidateName(p.name, MAX_POLICY_NAME).None?
            || !PolicyFieldsOk(p.capacity, p.refill, p.interval, p.maxCost) then Some(ValidationFailed)
    else None
  }

  function Revised(prior: Policy, p: Body, ts: Int64): Policy
    requires p.UpdatePolicy? && ValidateName(p.name, MAX_POLICY_NAME).Some?
    requires PolicyFieldsOk(p.capacity, p.refill, p.interval, p.maxCost)
  {
    prior.(name := ValidateName(p.name, MAX_POLICY_NAME).value,
           rate := Rate(p.capacity, p.refill, p.interval, p.maxCost),
           version := prior.version + 1, updatedAt := ts)
  }

  function ApplyUpdatePolicy(s: AppState, at: Position, ts: Int64, p: Body): Applied
    requires p.UpdatePolicy?
  {
    var refusal := UpdateRefusal(s, p);
    if refusal.Some? then Reject(s, refusal.value)
    else
      var prior := s.policies[p.id];
      var policy := Revised(prior, p, ts);
      var converted := s.(buckets := ConvertAll(s.buckets, p.id, prior.rate, policy.rate, ts, policy.version),
                          policies := s.policies[policy.id := policy]);
      Applied(AdminAudit(converted, at, PolicyUpdated, policy.id, ts), PolicyChanged(policy))
  }

  function ApplySetPolicyActive(s: AppState, at: Position, ts: Int64, p: Body): Applied
    requires p.SetPolicyActive?
  {
    if p.id !in s.policies then Reject(s, PolicyNotFound)
    else
      var prior := s.policies[p.id];
      if prior.version != p.expectedVersion then Reject(s, VersionConflict)
      else
        var policy := prior.(active := p.active, version := prior.version + 1, updatedAt := ts);
        Applied(AdminAudit(s.(policies := s.policies[policy.id := policy]), at,
                           if p.active then PolicyActivated else PolicyDeactivated, policy.id, ts),
                PolicyChanged(policy))
  }

  // ---- clients ----

  predicate Known(policies: map<Str, Policy>, ids: seq<Str>) {
    forall i :: 0 <= i < |ids| ==> ids[i] in policies
  }

  /** The reason to turn a new client away, if there is one. */
  function ClientRefusal(s: AppState, p: Body): Option<RejectCode>
    requires p.CreateClient?
  {
    if ValidateName(p.name, MAX_CLIENT_NAME).None? || !AllowedPoliciesOk(p.allowedPolicies)
       || p.id == [] || p.keyPrefix == [] || p.keyDigest == [] then Some(ValidationFailed)
    else if p.id in s.clients then Some(ClientExists)
    else if p.keyPrefix in s.prefixes then Some(KeyPrefixConflict)
    else if p.allowedPolicies != [WILDCARD] && !Known(s.policies, p.allowedPolicies) then Some(PolicyNotFound)
    else None
  }

  function NewClient(p: Body, ts: Int64): Client
    requires p.CreateClient? && ValidateName(p.name, MAX_CLIENT_NAME).Some?
  {
    Client(p.id, ValidateName(p.name, MAX_CLIENT_NAME).value, p.keyPrefix, p.keyDigest, p.allowedPolicies,
           true, ts, None)
  }

  function ApplyCreateClient(s: AppState, at: Position, ts: Int64, p: Body): Applied
    requires p.CreateClient?
  {
    var refusal := ClientRefusal(s, p);
    if refusal.Some? then Reject(s, refusal.value)
    else
      var client := NewClient(p, ts);
      Applied(AdminAudit(s.(clients := s.clients[p.id := client], prefixes := s.prefixes[p.keyPrefix := p.id]),
                         at, ClientCreated, [], ts),
              ClientChanged(client, false))
  }

  function ApplyRevokeClient(s: AppState, at: Position, ts: Int64, p: Body): Applied
    requires p.RevokeClient?
  {
    if p.id !in s.clients then Reject(s, ClientNotFound)
    else
      var client := s.clients[p.id];
      if !client.active then Applied(s, ClientChanged(client, true))
      else
        var revoked := client.(active := false, revokedAt := Some(ts));
        Applied(AdminAudit(s.(clients := s.clients[revoked.id := revoked]), at, ClientRevoked, [], ts),
                ClientChanged(revoked, false))
  }

  predicate AllowsPolicy(c: Client, policyId: Str) {
    exists i :: 0 <= i < |c.allowedPolicies| && (c.allowedPolicies[i] == WILDCARD || c.allowedPolicies[i] == policyId)
  }

  // ---- decisions ----

  function Decimal(n: nat): Str {
    if n < 10 then [48 + n] else Decimal(n / 10) + [48 + n % 10]
  }

  function FormatInt(x: int): Str {
    if x < 0 then [45] + Decimal(-x) else Decimal(x)
  }

  /** The content of a request, as it is fed to SHA-256.  The hash is taken to be
      injective, so the model keeps its input in place of the digest. */
  function RequestDigest(policyId: Str, subject: Str, cost: Int64): Str {
    policyId + [NEWLINE] + subject + [NEWLINE] + FormatInt(cost)
  }

  /** The stored bucket, or a full one for a subject seen for the first time. */
  function LoadBucket(s: AppState, policy: Policy, subject: Str, now: Int64): Bucket {
    if (policy.id, subject) in s.buckets then s.buckets[(policy.id, subject)]
    else Bucket(policy.id, subject, Wrap(policy.rate.capacity * MILLI), now, 0, policy.version, 0)
  }

  predicate RequestOk(p: Body)
    requires p.Decide?
  {
    ValidPolicyId(p.policyId) && ValidSubject(p.subject) && ValidRequestId(p.requestId) && p.cost >= 1
  }

  /** The reason to turn a fresh request away, if there is one. */
  function Refusal(s: AppState, p: Body): Option<RejectCode>
    requires p.Decide?
  {
    if p.clientId !in s.clients then Some(ClientNotFound)
    else if !s.clients[p.clientId].active then Some(ClientIsRevoked)
    else if !AllowsPolicy(s.clients[p.clientId], p.policyId) then Some(ForbiddenPolicy)
    else if p.policyId !in s.policies then Some(PolicyNotFound)
    else if !s.policies[p.policyId].active then Some(PolicyInactive)
    else if p.cost > s.policies[p.policyId].rate.maxCost then Some(ValidationFailed)
    else None
  }

  function DecisionOf(p: Body, at: Position, ts: Int64, spent: Spending): Decision
    requires p.Decide?
  {
    Decision(p.requestId, RequestDigest(p.policyId, p.subject, p.cost), p.clientId, p.policyId, p.subject, p.cost,
             spent.allowed, spent.bucket.tokens, spent.retryAfter, ts, Wrap(ts + IDEMPOTENCY_TTL), at.term, at.index)
  }

  /** The spending that a fresh decision does. */
  function SpendingFor(s: AppState, ts: Int64, p: Body): Spending
    requires p.Decide? && p.policyId in s.policies
  {
    var policy := s.policies[p.policyId];
    Spend(Refill(LoadBucket(s, policy, p.subject, ts), policy.rate, ts), p.cost, policy.rate)
  }

  /** The state with a decision's bucket, record and audit written. */
  function Recorded(s: AppState, at: Position, ts: Int64, p: Body, spent: Spending, version: nat): AppState
    requires p.Decide?
  {
    var bucket := spent.bucket.(policyVersion := version, updatedIndex := at.index);
    var actor := if p.actorType == [] then CLIENT_ACTOR else p.actorType;
    s.(buckets := s.buckets[(bucket.policyId, bucket.subject) := bucket],
       decisions := s.decisions[(p.clientId, p.requestId) := DecisionOf(p, at, ts, spent)],
       audits := s.audits[at.index := Audit(DecisionMade, ts, actor, p.clientId, p.requestId, p.policyId,
                                            spent.allowed, p.cost, bucket.tokens, at.term, at.index)])
  }

  /** Refill, spend, and record: the part of a decision that changes state. */
  function Charge(s: AppState, at: Position, ts: Int64, p: Body): Applied
    requires p.Decide? && p.policyId in s.policies
  {
    var spent := SpendingFor(s, ts, p);
    Applied(Recorded(s, at, ts, p, spent, s.policies[p.policyId].version), Decided(DecisionOf(p, at, ts, spent), false))
  }

  function ApplyDecide(s: AppState, at: Position, ts: Int64, p: Body): Applied
    requires p.Decide?
  {
    var key := (p.clientId, p.requestId);
    if !RequestOk(p) then Reject(s, ValidationFailed)
    else if |p.clientId| > Encoding.MAX_KEY_PART then Failed
    else if key in s.decisions then
      if s.decisions[key].digest != RequestDigest(p.policyId, p.subject, p.cost) then Reject(s, IdempotencyConflict)
      else Applied(s, Decided(s.decisions[key], true))
    else
      var refusal := Refusal(s, p);
      if refusal.Some? then Reject(s, refusal.value) else Charge(s, at, ts, p)
  }

  // ---- pruning ----

  function Newer(audits: map<nat, Audit>, i: nat): set<nat> {
    set j | j in audits && j > i
  }

  /** Indexes with fewer than `keep` newer ones. */
  function Newest(audits: map<nat, Audit>, keep: nat): set<nat> {
    set i | i in audits && |Newer(audits, i)| < keep
  }

  /** Records that a prune at time ts leaves. */
  function Live(decisions: map<(Str, Str), Decision>, ts: Int64): set<(Str, Str)> {
    set k | k in decisions && decisions[k].expiresAt > ts
  }

  function KeepMax(p: Body): nat
    requires p.Prune?
  {
    if p.auditKeepMax <= 0 then DEFAULT_AUDIT_KEEP else p.auditKeepMax
  }

  function ApplyPrune(s: AppState, ts: Int64, p: Body): Applied
    requires p.Prune?
  {
    var live := Live(s.decisions, ts);
    var newest := Newest(s.audits, KeepMax(p));
    Applied(s.(decisions := map k | k in live :: s.decisions[k],
               audits := map i | i in newest :: s.audits[i]),
            Pruned(|s.decisions.Keys - live|, |s.audits.Keys - newest|))
  }

  // ---- dispatch ----

  function ApplyCommand(s: AppState, at: Position, cmd: Command): Applied {
    match cmd.body
    case CreatePolicy(_, _, _, _, _, _, _) => ApplyCreatePolicy(s, at, cmd.timestamp, cmd.body)
    case UpdatePolicy(_, _, _, _, _, _, _) => ApplyUpdatePolicy(s, at, cmd.timestamp, cmd.body)
    case SetPolicyActive(_, _, _) => ApplySetPolicyActive(s, at, cmd.timestamp, cmd.body)
    case CreateClient(_, _, _, _, _) => ApplyCreateClient(s, at, cmd.timestamp, cmd.body)
    case RevokeClient(_) => ApplyRevokeClient(s, at, cmd.timestamp, cmd.body)
    case Decide(_, _, _, _, _, _) => ApplyDecide(s, at, cmd.timestamp, cmd.body)
    case Prune(_) => ApplyPrune(s, cmd.timestamp, cmd.body)
    case Malformed => Failed
  }

  /** Apply one committed log entry; entries without a command change nothing. */
  function ApplyEntry(s: AppState, index: nat, term: nat, entry: LogEntry): Applied {
    match entry.payload
    case Carries(cmd) => ApplyCommand(s, Position(index, term), cmd)
    case Sentinel => Applied(s, Skipped)
    case Noop => Applied(s, Skipped)
  }
}
