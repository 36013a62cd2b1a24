/**
  The values that the limiter stores and replicates: policies, clients, token
  buckets, decision records, audit events, the seven commands, and the log entry
  that carries a command.

  Identifiers, subjects and keys are byte strings, as Go strings are.  Display
  names are sequences of Unicode scalar values, because their length is counted
  in runes.
 */
module Models {

  type Byte = x: int | 0 <= x < 256
  type Str = seq<Byte>

  const INT64_MIN: int := -0x8000_0000_0000_0000
  const INT64_MAX: int := 0x7FFF_FFFF_FFFF_FFFF

  type Int64 = x: int | INT64_MIN <= x <= INT64_MAX

  datatype Option<+T> = None | Some(value: T)

  // Bounds on the numeric fields of a policy.
  const MAX_CAPACITY: int := 1_000_000
  const MAX_REFILL: int := 1_000_000
  const MIN_INTERVAL: int := 1_000
  const MAX_INTERVAL: int := 86_400_000

  /** The numeric check that every stored policy has passed. */
  predicate PolicyFieldsOk(capacity: int, refill: int, interval: int, maxCost: int) {
    && 1 <= capacity <= MAX_CAPACITY
    && 1 <= refill <= MAX_REFILL
    && MIN_INTERVAL <= interval <= MAX_INTERVAL
    && 1 <= maxCost <= capacity
  }

  /** The token-bucket parameters of a policy, in whole tokens and milliseconds. */
  datatype RateData = Rate(capacity: Int64, refill: Int64, interval: Int64, maxCost: Int64)

  type Rate = r: RateData | PolicyFieldsOk(r.capacity, r.refill, r.interval, r.maxCost)
    witness Rate(1, 1, 1_000, 1)

  datatype Policy = Policy(
    id: Str,
    name: string,
    rate: Rate,
    active: bool,
    version: nat,
    createdAt: Int64,
    updatedAt: Int64)

  datatype Client = Client(
    id: Str,
    name: string,
    keyPrefix: Str,
    keyDigest: Str,
    allowedPolicies: seq<Str>,
    active: bool,
    createdAt: Int64,
    revokedAt: Option<Int64>)

  /** The balance of one subject under one policy, in milli-tokens. */
  datatype Bucket = Bucket(
    policyId: Str,
    subject: Str,
    tokens: Int64,
    lastRefill: Int64,
    remainder: Int64,
    policyVersion: nat,
    updatedIndex: nat)

  datatype Decision = Decision(
    requestId: Str,
    digest: Str,
    clientId: Str,
    policyId: Str,
    subject: Str,
    cost: Int64,
    allowed: bool,
    remaining: Int64,
    retryAfter: Int64,
    observedAt: Int64,
    expiresAt: Int64,
    leaderTerm: nat,
    logIndex: nat)

  datatype Event = PolicyCreated | PolicyUpdated | PolicyActivated | PolicyDeactivated
                 | ClientCreated | ClientRevoked | DecisionMade

  datatype Audit = Audit(
    event: Event,
    timestamp: Int64,
    actorType: Str,
    actorId: Str,
    requestId: Str,
    policyId: Str,
    allowed: bool,
    cost: Int64,
    remaining: Int64,
    term: nat,
    logIndex: nat)

  /** A replicated command: the leader's clock reading and one of seven payloads.
      `Malformed` stands for an envelope or payload that does not decode, and for
      an unknown command type. */
  datatype Command = Command(timestamp: Int64, body: Body)

  datatype Body =
    | CreatePolicy(id: Str, name: string, capacity: Int64, refill: Int64, interval: Int64,
                   maxCost: Int64, active: bool)
    | UpdatePolicy(id: Str, name: string, capacity: Int64, refill: Int64, interval: Int64,
                   maxCost: Int64, expectedVersion: nat)
    | SetPolicyActive(id: Str, active: bool, expectedVersion: nat)
    | CreateClient(id: Str, name: string, keyPrefix: Str, keyDigest: Str, allowedPolicies: seq<Str>)
    | RevokeClient(id: Str)
    | Decide(clientId: Str, policyId: Str, subject: Str, cost: Int64, requestId: Str, actorType: Str)
    | Prune(auditKeepMax: int)
    | Malformed

  datatype RejectCode =
    | ValidationFailed | PolicyNotFound | PolicyInactive | PolicyExists | VersionConflict
    | ClientNotFound | ClientIsRevoked | ForbiddenPolicy | KeyPrefixConflict | ClientExists
    | IdempotencyConflict

  /** What applying a command reports to the proposer. */
  datatype Result =
    | Decided(decision: Decision, duplicate: bool)
    | PolicyChanged(policy: Policy)
    | ClientChanged(client: Client, duplicate: bool)
    | Pruned(idempotencyRemoved: nat, auditRemoved: nat)
    | Rejected(code: RejectCode)
    | Skipped  // an entry that carries no command

  /** The replicated application state. */
  datatype AppState = AppState(
    policies: map<Str, Policy>,
    clients: map<Str, Client>,
    prefixes: map<Str, Str>,
    buckets: map<(Str, Str), Bucket>,
    decisions: map<(Str, Str), Decision>,
    audits: map<nat, Audit>)

  const EMPTY_STATE := AppState(map[], map[], map[], map[], map[], map[])

  /** Either the new state with the caller's result, or an infrastructure error
      that leaves the entry unapplied. */
  datatype Applied = Applied(state: AppState, result: Result) | Failed

  // The replicated log.

  datatype Payload = Sentinel | Noop | Carries(command: Command)

  datatype LogEntry = LogEntry(index: nat, term: nat, payload: Payload)

  const SENTINEL := LogEntry(0, 0, Sentinel)
}
