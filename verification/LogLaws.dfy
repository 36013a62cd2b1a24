/**
  What the tables say about the log that made them.  After any log, a policy is what the
  last change to it reported, and its version counts its changes; a client is as some
  entry created it, and revoked exactly if a later entry revoked it; and, until the
  audits are pruned, they are exactly the entries that changed something.
 */
module LogLaws {
  import opened Models
  import opened Validation
  import opened StateMachine
  import opened StoreInvariant
  import opened Idempotency
  import opened CommandLaws

  /** A log from the empty store that applies to its end. */
  ghost predicate Applies(es: seq<LogEntry>) {
    (forall e :: e in es ==> Timely(e)) && Run(EMPTY_STATE, es).Some?
  }

  lemma AppliesButLast(es: seq<LogEntry>)
    requires Applies(es) && |es| > 0
    ensures var rest, e := es[..|es| - 1], es[|es| - 1];
            && Applies(rest) && Timely(e) && StoreOk(Run(EMPTY_STATE, rest).value)
            && Step(Run(EMPTY_STATE, rest).value, e).Applied?
            && Run(EMPTY_STATE, es).value == Step(Run(EMPTY_STATE, rest).value, e).state
  {
    var rest := es[..|es| - 1];
    assert forall e :: e in rest ==> e in es;
    assert es[|es| - 1] in es;
    EmptyStoreOk();
    StoreAlwaysOk(EMPTY_STATE, rest);
  }

  function Last(es: seq<LogEntry>): Option<Result>
    requires |es| > 0
  {
    match Run(EMPTY_STATE, es[..|es| - 1])
    case None => None
    case Some(s) => match Step(s, es[|es| - 1]) case Failed => None case Applied(_, r) => Some(r)
  }

  // ---- policies ----

  predicate Changes(r: Option<Result>, id: Str) {
    r.Some? && r.value.PolicyChanged? && r.value.policy.id == id
  }

  /** How many entries changed the policy, */
  function ChangeCount(es: seq<LogEntry>, id: Str): nat {
    if |es| == 0 then 0 else ChangeCount(es[..|es| - 1], id) + if Changes(Last(es), id) then 1 else 0
  }

  /** and what the last of them reported. */
  function LastChange(es: seq<LogEntry>, id: Str): Option<Policy> {
    if |es| == 0 then None
    else if Changes(Last(es), id) then Some(Last(es).value.policy)
    else LastChange(es[..|es| - 1], id)
  }

  function Stored(s: AppState, id: Str): Option<Policy> { if id in s.policies then Some(s.policies[id]) else None }

  /** Of one entry: a reported change is the stored policy, one version up; otherwise nothing changes. */
  ghost predicate PolicyStep(s: AppState, x: Applied, id: Str) {
    x.Applied? ==>
      if Changes(Some(x.result), id)
      then Stored(x.state, id) == Some(x.result.policy)
           && x.result.policy.version == 1 + (if id in s.policies then s.policies[id].version else 0)
      else Stored(x.state, id) == Stored(s, id)
  }

  lemma CreatePolicyStep(s: AppState, at: Position, ts: Int64, p: Body, id: Str)
    requires p.CreatePolicy?
    ensures PolicyStep(s, ApplyCreatePolicy(s, at, ts, p), id)
  {
  }

  lemma ChangePolicyStep(s: AppState, at: Position, ts: Int64, p: Body, id: Str)
    requires StoreOk(s)
    ensures p.UpdatePolicy? ==> PolicyStep(s, ApplyUpdatePolicy(s, at, ts, p), id)
    ensures p.SetPolicyActive? ==> PolicyStep(s, ApplySetPolicyActive(s, at, ts, p), id)
  {
    if p.UpdatePolicy? || p.SetPolicyActive? { assert PolicyOk(s.policies, p.id); }
  }

  lemma OtherPolicyStep(s: AppState, at: Position, ts: Int64, p: Body, id: Str)
    ensures p.CreateClient? ==> PolicyStep(s, ApplyCreateClient(s, at, ts, p), id)
    ensures p.RevokeClient? ==> PolicyStep(s, ApplyRevokeClient(s, at, ts, p), id)
    ensures p.Prune? ==> PolicyStep(s, ApplyPrune(s, ts, p), id)
  {
  }

  lemma DecidePolicyStep(s: AppState, at: Position, ts: Int64, p: Body, id: Str)
    requires p.Decide?
    ensures PolicyStep(s, ApplyDecide(s, at, ts, p), id)
  {
  }

  lemma EntryPolicyStep(s: AppState, e: LogEntry, id: Str)
    requires StoreOk(s)
    ensures PolicyStep(s, Step(s, e), id)
  {
    if e.payload.Carries? {
      var at, ts, p := Position(e.index, e.term), e.payload.command.timestamp, e.payload.command.body;
      if p.CreatePolicy? { CreatePolicyStep(s, at, ts, p, id); }
      if p.Decide? { DecidePolicyStep(s, at, ts, p, id); }
      ChangePolicyStep(s, at, ts, p, id);
      OtherPolicyStep(s, at, ts, p, id);
    }
  }

  /** A policy is what its last change reported, and its version is the number of its changes. */
  lemma {:induction false} PoliciesAreTheirChanges(es: seq<LogEntry>, id: Str)
    requires Applies(es)
    ensures var s := Run(EMPTY_STATE, es).value;
            && Stored(s, id) == LastChange(es, id)
            && (if id in s.policies then s.policies[id].version else 0) == ChangeCount(es, id)
  {
    if |es| == 0 {
    } else {
      AppliesButLast(es);
      PoliciesAreTheirChanges(es[..|es| - 1], id);
      EntryPolicyStep(Run(EMPTY_STATE, es[..|es| - 1]).value, es[|es| - 1], id);
    }
  }

  // ---- clients ----

  /** The client is what the entry asked for, active from its time on. */
  predicate Creates(e: LogEntry, client: Client) {
    && e.payload.Carries? && e.payload.command.body.CreateClient?
    && var p, ts := e.payload.command.body, e.payload.command.timestamp;
    && client.id == p.id && Some(client.name) == ValidateName(p.name, MAX_CLIENT_NAME)
    && client.keyPrefix == p.keyPrefix && client.keyDigest == p.keyDigest
    && client.allowedPolicies == p.allowedPolicies
    && client.active && client.createdAt == ts && client.revokedAt == None
  }

  predicate Revokes(e: LogEntry, id: Str) {
    e.payload.Carries? && e.payload.command.body.RevokeClient? && e.payload.command.body.id == id
  }

  /** The client as it was created, but for its revocation. */
  function AsCreated(client: Client): Client { client.(active := true, revokedAt := None) }

  ghost predicate RevokedAfter(es: seq<LogEntry>, i: nat, id: Str) {
    exists j :: i < j < |es| && Revokes(es[j], id)
  }

  /** Of one entry: a client is new, just revoked, or as it was. */
  ghost predicate ClientStep(s: AppState, e: LogEntry, s': AppState, id: Str) {
    id in s'.clients ==>
      var client := s'.clients[id];
      if id !in s.clients then Creates(e, client) && client.id == id
      else AsCreated(client) == AsCreated(s.clients[id])
           && (client.active <==> s.clients[id].active && !Revokes(e, id))
  }

  lemma NewClientStep(s: AppState, e: LogEntry, id: Str)
    requires Step(s, e).Applied? && e.payload.Carries? && e.payload.command.body.CreateClient?
    ensures ClientStep(s, e, Step(s, e).state, id) && (id in s.clients ==> id in Step(s, e).state.clients)
  {
  }

  lemma EntryClientStep(s: AppState, e: LogEntry, id: Str)
    requires StoreOk(s) && Step(s, e).Applied?
    ensures ClientStep(s, e, Step(s, e).state, id) && (id in s.clients ==> id in Step(s, e).state.clients)
  {
    if e.payload.Carries? {
      var at, ts, p := Position(e.index, e.term), e.payload.command.timestamp, e.payload.command.body;
      if p.CreateClient? {
        NewClientStep(s, e, id);
      } else if p.RevokeClient? {
        RevokeStep(s, e, id);
      } else {
        OthersKeepClients(s, at, ts, p, id);
      }
    }
  }

  lemma RevokeStep(s: AppState, e: LogEntry, id: Str)
    requires StoreOk(s) && Step(s, e).Applied? && e.payload.Carries? && e.payload.command.body.RevokeClient?
    ensures ClientStep(s, e, Step(s, e).state, id) && (id in s.clients ==> id in Step(s, e).state.clients)
  {
    assert ClientOk(s.clients, s.prefixes, e.payload.command.body.id);
  }

  lemma LongerRevoked(es: seq<LogEntry>, i: nat, id: Str)
    requires |es| > 0 && i < |es| - 1
    ensures RevokedAfter(es, i, id) <==> RevokedAfter(es[..|es| - 1], i, id) || Revokes(es[|es| - 1], id)
  {
    var rest := es[..|es| - 1];
    if RevokedAfter(rest, i, id) {
      var j :| i < j < |rest| && Revokes(rest[j], id);
      assert Revokes(es[j], id);
    }
    if RevokedAfter(es, i, id) && !Revokes(es[|es| - 1], id) {
      var j :| i < j < |es| && Revokes(es[j], id);
      assert Revokes(rest[j], id);
    }
  }

  /** A client is as some entry created it, and revoked exactly if a later entry revoked it. */
  lemma {:induction false} ClientsAreAsCreated(es: seq<LogEntry>, id: Str) returns (i: nat)
    requires Applies(es) && id in Run(EMPTY_STATE, es).value.clients
    ensures var client := Run(EMPTY_STATE, es).value.clients[id];
            && i < |es| && Creates(es[i], AsCreated(client)) && client.id == id
            && (client.active <==> !RevokedAfter(es, i, id))
  {
    AppliesButLast(es);
    var rest, e := es[..|es| - 1], es[|es| - 1];
    var s := Run(EMPTY_STATE, rest).value;
    EntryClientStep(s, e, id);
    if id in s.clients {
      i := ClientsAreAsCreated(rest, id);
      LongerRevoked(es, i, id);
    } else {
      i := |es| - 1;
    }
  }

  // ---- audits ----

  predicate ChangedSomething(r: Option<Result>) { r.Some? && !ChangesNothing(r.value) }

  /** Which entry, by position in the log, last changed something at each log index. */
  function Trail(es: seq<LogEntry>): map<nat, nat> {
    if |es| == 0 then map[]
    else
      var rest := Trail(es[..|es| - 1]);
      if ChangedSomething(Last(es)) then rest[es[|es| - 1].index := |es| - 1] else rest
  }

  /** The audit under k is the one that entry e left. */
  predicate LeftBy(audits: map<nat, Audit>, k: nat, e: LogEntry) {
    && k in audits && e.payload.Carries?
    && audits[k].logIndex == k == e.index && audits[k].term == e.term
    && audits[k].timestamp == e.payload.command.timestamp && audits[k].event == EventOf(e.payload.command.body)
  }

  /** The audits are exactly the entries that changed something, each under its own index,
      with its kind, term and time, as long as nothing has been pruned. */
  lemma {:induction false} AuditsAreTheChanges(es: seq<LogEntry>)
    requires Applies(es) && forall e :: e in es ==> !IsPrune(e)
    ensures var audits := Run(EMPTY_STATE, es).value.audits;
            && audits.Keys == Trail(es).Keys
            && forall k :: k in audits ==> Trail(es)[k] < |es| && LeftBy(audits, k, es[Trail(es)[k]])
  {
    if |es| == 0 {
    } else {
      var rest, e := es[..|es| - 1], es[|es| - 1];
      AppliesButLast(es);
      AuditsAreTheChanges(rest);
      var s := Run(EMPTY_STATE, rest).value;
      assert !IsPrune(e);
      NotPruned(s, e);
      if ChangesNothing(Step(s, e).result) {
        RejectionsChangeNothing(s, e);
      } else {
        EveryChangeIsAudited(s, e);
      }
    }
  }

  lemma NotPruned(s: AppState, e: LogEntry)
    requires Step(s, e).Applied? && !IsPrune(e)
    ensures !Step(s, e).result.Pruned?
  {
  }
}
