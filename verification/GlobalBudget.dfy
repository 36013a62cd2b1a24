/**
  The global budget.  Whatever the run, elections, losses and crashes included, the
  decisions that all leaders of all terms ever report as allowed on one bucket, whether
  fresh or repeated to a retry, cost, together with what the bucket still holds, no more
  than it was granted.

  Each decision was made at one applied entry, which it names, and every applied entry
  is on the log of the member that has applied the most, so the decisions add up within
  the ledger of that one log.
 */
module GlobalBudget {
  import opened Models
  import opened RaftNode
  import opened Cluster
  import opened ClusterSafety
  import opened ClusterResults
  import opened ClusterWaiters
  import opened ClusterProposals
  import Limiter = StateMachine
  import opened TokenBucket
  import opened StoreInvariant
  import opened Ledger

  /** The cluster runs the limiter, from an empty store. */
  ghost predicate RunsLimiter(c: Config) {
    c.init == EMPTY_STATE && forall s, i, t, e :: c.apply(s, i, t, e) == Limiter.ApplyEntry(s, i, t, e)
  }

  /** No leader's clock has stamped a proposal with a negative time. */
  ghost predicate ProposedInTime(s: State) {
    forall t :: t in s.tickets ==> s.tickets[t].command.timestamp >= 0
  }

  /** Entries 1 to k. */
  function Upto(log: seq<LogEntry>, k: nat): seq<LogEntry>
    requires k < |log|
  {
    log[1..k + 1]
  }

  lemma {:induction false} ReplayIsRun(c: Config, log: seq<LogEntry>, k: nat)
    requires RunsLimiter(c) && WellFormed(log) && k < |log|
    ensures Replay(c, log, k) == Run(EMPTY_STATE, Upto(log, k))
  {
    if k == 0 {
    } else {
      ReplayIsRun(c, log, k - 1);
      assert Upto(log, k)[..k - 1] == Upto(log, k - 1) && Upto(log, k)[k - 1] == log[k];
      assert EntryOk(log, k);
    }
  }

  // ---- what a member has applied ----

  lemma AppliedInTime(c: Config, run: seq<State>, i: nat, id: NodeId)
    requires IsRun(c, run) && i < |run| && id in c.servers && ProposedInTime(run[i])
    ensures id in run[i].nodes && run[i].nodes[id].applied < |run[i].nodes[id].log|
    ensures forall e :: e in Upto(run[i].nodes[id].log, run[i].nodes[id].applied) ==> Timely(e)
  {
    AppliedExactlyOnce(c, run, i, id);
    var n := run[i].nodes[id];
    var es := Upto(n.log, n.applied);
    forall k | 0 <= k < |es| ensures Timely(es[k]) {
      if es[k].payload.Carries? {
        assert es[k] == n.log[k + 1];
        var t := CommandsWereProposed(c, run, i, id, k + 1);
      }
    }
  }

  /** A member's tables are the limiter folded over what it has applied. */
  lemma AppliedIsRun(c: Config, run: seq<State>, i: nat, id: NodeId)
    requires IsRun(c, run) && RunsLimiter(c) && i < |run| && id in c.servers
    ensures id in run[i].nodes && run[i].nodes[id].applied < |run[i].nodes[id].log|
    ensures WellFormed(run[i].nodes[id].log)
    ensures Run(EMPTY_STATE, Upto(run[i].nodes[id].log, run[i].nodes[id].applied)) == Some(run[i].nodes[id].app)
  {
    AppliedExactlyOnce(c, run, i, id);
    CommittedJustified(c, run, i, id);
    ReplayIsRun(c, run[i].nodes[id].log, run[i].nodes[id].applied);
  }

  /** Every member's tables satisfy the store invariant, at every moment of every run. */
  lemma StoresStayOk(c: Config, run: seq<State>, i: nat, id: NodeId)
    requires IsRun(c, run) && RunsLimiter(c) && i < |run| && id in c.servers && ProposedInTime(run[i])
    ensures id in run[i].nodes && StoreOk(run[i].nodes[id].app)
  {
    AppliedInTime(c, run, i, id);
    AppliedIsRun(c, run, i, id);
    EmptyStoreOk();
    StoreAlwaysOk(EMPTY_STATE, Upto(run[i].nodes[id].log, run[i].nodes[id].applied));
  }

  // ---- answered proposals have been applied by their node ----

  /** Only the apply step reports a result, to the waiter of the entry it applies. */
  lemma NewAnswer(c: Config, s: State, a: Action, t: nat)
    requires Shaped(c, s) && Enabled(c, s, a)
    requires t !in s.outcomes && t in Do(c, s, a).outcomes && Do(c, s, a).outcomes[t].Done?
    ensures a.ApplyEntry? && s.nodes[a.id].applied + 1 in s.nodes[a.id].waiters
            && t == s.nodes[a.id].waiters[s.nodes[a.id].applied + 1]
  {
    match a
    case AnswerAppend(id, m) =>
    case CountVote(id, m) =>
    case AnswerVote(id, m) =>
    case _ =>
  }

  lemma {:induction false} AnsweredIsApplied(c: Config, run: seq<State>, i: nat, t: nat)
    requires IsRun(c, run) && i < |run| && t in run[i].outcomes && run[i].outcomes[t].Done?
    ensures t in run[i].tickets
    ensures var k := run[i].tickets[t];
            k.node in c.servers && k.node in run[i].nodes && k.index <= run[i].nodes[k.node].applied
  {
    RunAnswers(c, run, i);
    assert OutcomeOk(c, run[i], t);
    if i == 0 {
    } else if t in run[i - 1].outcomes {
      RunRemembers(c, run, i - 1, i);
      AnsweredIsApplied(c, run, i - 1, t);
      RunStepKeepsCommitted(c, run, i - 1, run[i - 1].tickets[t].node);
    } else {
      var a := RunAction(c, run, i - 1);
      RunAnswers(c, run, i - 1);
      JustApplied(c, run[i - 1], a, t);
    }
  }

  lemma JustApplied(c: Config, s: State, a: Action, t: nat)
    requires Shaped(c, s) && Enabled(c, s, a) && Answers(c, s)
    requires t !in s.outcomes && t in Do(c, s, a).outcomes && Do(c, s, a).outcomes[t].Done?
    ensures var s' := Do(c, s, a);
            && t in s'.tickets
            && var k := s'.tickets[t];
            k.node in c.servers && k.node in s'.nodes && k.index <= s'.nodes[k.node].applied
  {
    NewAnswer(c, s, a, t);
    assert WaiterOk(s, a.id, s.nodes[a.id].applied + 1);
  }

  // ---- every reported decision was made once, at the entry it names ----

  /** The decision is what the entry at its own log index decided, at or below k. */
  ghost predicate MadeOn(c: Config, log: seq<LogEntry>, k: nat, d: Decision) {
    1 <= d.logIndex <= k < |log| && ResultAt(c, log, d.logIndex) == Some(Decided(d, false))
  }

  /** A record is an old one, or the decision just made. */
  lemma RecordOrigin(s: AppState, e: LogEntry, key: Key)
    requires Limiter.ApplyEntry(s, e.index, e.term, e).Applied?
    requires key in Limiter.ApplyEntry(s, e.index, e.term, e).state.decisions
    ensures var x := Limiter.ApplyEntry(s, e.index, e.term, e);
            || (key in s.decisions && x.state.decisions[key] == s.decisions[key])
            || (x.result == Decided(x.state.decisions[key], false) && x.state.decisions[key].logIndex == e.index)
  {
    if e.payload.Carries? {
      var at, ts, p := Limiter.Position(e.index, e.term), e.payload.command.timestamp, e.payload.command.body;
      if !p.Decide? { AdminRecords(s, at, e.payload.command, key); }
    }
  }

  lemma AdminRecords(s: AppState, at: Limiter.Position, cmd: Command, key: Key)
    requires !cmd.body.Decide? && Limiter.ApplyCommand(s, at, cmd).Applied?
    ensures var s' := Limiter.ApplyCommand(s, at, cmd).state;
            key in s'.decisions ==> key in s.decisions && s'.decisions[key] == s.decisions[key]
  {
    match cmd.body
    case UpdatePolicy(_, _, _, _, _, _, _) =>
    case Prune(_) =>
    case _ =>
  }

  /** Every record in the tables was made on the log. */
  lemma {:induction false} RecordsWereMade(c: Config, log: seq<LogEntry>, k: nat, key: Key)
    requires RunsLimiter(c) && WellFormed(log) && k < |log|
    requires Replay(c, log, k).Some? && key in Replay(c, log, k).value.decisions
    ensures MadeOn(c, log, k, Replay(c, log, k).value.decisions[key])
  {
    if k == 0 {
    } else {
      assert EntryOk(log, k);
      RecordOrigin(Replay(c, log, k - 1).value, log[k], key);
      if key in Replay(c, log, k - 1).value.decisions { RecordsWereMade(c, log, k - 1, key); }
    }
  }

  lemma FreshNamesItsEntry(c: Config, log: seq<LogEntry>, k: nat)
    requires RunsLimiter(c) && 1 <= k < |log| && ResultAt(c, log, k).Some?
    ensures var r := ResultAt(c, log, k).value;
            && (r.Decided? && !r.duplicate ==> r.decision.logIndex == k)
            && (r.Decided? && r.duplicate ==> r.decision in Replay(c, log, k - 1).value.decisions.Values)
  {
    var s, r := Replay(c, log, k - 1).value, ResultAt(c, log, k).value;
    if r.Decided? {
      var key := (log[k].payload.command.body.clientId, log[k].payload.command.body.requestId);
      assert r.duplicate ==> key in s.decisions.Keys && s.decisions[key] == r.decision;
    }
  }

  /** A reported decision, fresh or repeated, was made at or below the entry that reports it. */
  lemma ReportedWasMade(c: Config, log: seq<LogEntry>, k: nat)
    requires RunsLimiter(c) && WellFormed(log) && 1 <= k < |log| && ResultAt(c, log, k).Some?
    ensures ResultAt(c, log, k).value.Decided? ==> MadeOn(c, log, k, ResultAt(c, log, k).value.decision)
  {
    var r := ResultAt(c, log, k).value;
    FreshNamesItsEntry(c, log, k);
    if r.Decided? && r.duplicate {
      var records := Replay(c, log, k - 1).value.decisions;
      var key :| key in records && records[key] == r.decision;
      RecordsWereMade(c, log, k - 1, key);
    }
  }

  // ---- adding up decisions ----

  /** A decision that allows spending from the bucket. */
  predicate Allows(d: Decision, key: Key) { d.allowed && (d.policyId, d.subject) == key }

  /** Milli-tokens that a set of decisions lets its requesters spend. */
  ghost function Cost(D: set<Decision>): int {
    if D == {} then 0 else var d :| d in D; d.cost * MILLI + Cost(D - {d})
  }

  lemma {:induction false} CostSplit(D: set<Decision>, d: Decision)
    requires d in D
    ensures Cost(D) == d.cost * MILLI + Cost(D - {d})
  {
    var u :| u in D && Cost(D) == u.cost * MILLI + Cost(D - {u});
    if u == d {
    } else {
      CostSplit(D - {u}, d);
      CostSplit(D - {d}, u);
      assert D - {u} - {d} == D - {d} - {u};
    }
  }

  lemma ChargeNonNegative(s: AppState, e: LogEntry, key: Key)
    requires Limiter.ApplyEntry(s, e.index, e.term, e).Applied?
    ensures ChargeIn(Limiter.ApplyEntry(s, e.index, e.term, e).result, key) >= 0
  {
  }

  lemma SpentStep(c: Config, log: seq<LogEntry>, k: nat, key: Key)
    requires RunsLimiter(c) && WellFormed(log) && 1 <= k < |log| && Run(EMPTY_STATE, Upto(log, k)).Some?
    ensures Run(EMPTY_STATE, Upto(log, k - 1)).Some? && ResultAt(c, log, k).Some?
    ensures var charge := ChargeIn(ResultAt(c, log, k).value, key);
            charge >= 0 && Spent(EMPTY_STATE, Upto(log, k), key) == Spent(EMPTY_STATE, Upto(log, k - 1), key) + charge
  {
    var before, es := Upto(log, k - 1), Upto(log, k);
    assert es[..k - 1] == before && es[k - 1] == log[k];
    assert EntryOk(log, k);
    ReplayIsRun(c, log, k - 1);
    ChargeNonNegative(Run(EMPTY_STATE, before).value, log[k], key);
  }

  ghost predicate AllMadeOn(c: Config, log: seq<LogEntry>, k: nat, D: set<Decision>, key: Key) {
    forall d {:trigger MadeOn(c, log, k, d)} :: d in D ==> MadeOn(c, log, k, d) && Allows(d, key)
  }

  /** One entry makes one decision, so all but one of them were made below it. */
  lemma OthersBelow(c: Config, log: seq<LogEntry>, k: nat, D: set<Decision>, key: Key, d: Decision)
    requires AllMadeOn(c, log, k, D, key) && MadeOn(c, log, k, d) && d.logIndex == k
    ensures AllMadeOn(c, log, k - 1, D - {d}, key)
  {
    forall u | u in D - {d} ensures MadeOn(c, log, k - 1, u) && Allows(u, key) { assert MadeOn(c, log, k, u); }
  }

  lemma NoneAt(c: Config, log: seq<LogEntry>, k: nat, D: set<Decision>, key: Key)
    requires AllMadeOn(c, log, k, D, key) && forall d :: d in D ==> d.logIndex != k
    ensures k == 0 ==> D == {}
    ensures k > 0 ==> AllMadeOn(c, log, k - 1, D, key)
  {
    forall d | d in D ensures k > 0 && MadeOn(c, log, k - 1, d) && Allows(d, key) { assert MadeOn(c, log, k, d); }
  }

  /** Decisions made at or below index k cost what entries 1 to k spent, or less. */
  lemma {:induction false} CostWithinSpent(c: Config, log: seq<LogEntry>, k: nat, D: set<Decision>, key: Key)
    requires RunsLimiter(c) && WellFormed(log) && k < |log| && Run(EMPTY_STATE, Upto(log, k)).Some?
    requires AllMadeOn(c, log, k, D, key)
    ensures Cost(D) <= Spent(EMPTY_STATE, Upto(log, k), key)
  {
    if k > 0 { SpentStep(c, log, k, key); }
    if d :| d in D && d.logIndex == k {
      assert MadeOn(c, log, k, d);
      OthersBelow(c, log, k, D, key, d);
      CostSplit(D, d);
      CostWithinSpent(c, log, k - 1, D - {d}, key);
    } else {
      NoneAt(c, log, k, D, key);
      if k > 0 { CostWithinSpent(c, log, k - 1, D, key); }
    }
  }

  // ---- the theorem ----

  /** No member has applied more. */
  ghost predicate MostApplied(c: Config, s: State, b: NodeId) {
    && b in c.servers && b in s.nodes
    && forall x :: x in c.servers ==> x in s.nodes && s.nodes[x].applied <= s.nodes[b].applied
  }

  /** There is always a most advanced member. */
  lemma {:induction false} MostAppliedExists(s: State, among: set<NodeId>) returns (b: NodeId)
    requires among != {} && among <= s.nodes.Keys
    ensures b in among && forall x :: x in among ==> s.nodes[x].applied <= s.nodes[b].applied
  {
    var x :| x in among;
    if among == {x} {
      b := x;
    } else {
      b := MostAppliedExists(s, among - {x});
      if s.nodes[b].applied < s.nodes[x].applied { b := x; }
    }
  }

  /** All decisions reported so far that allow spending from a bucket. */
  ghost function AllowedSoFar(s: State, key: Key): set<Decision> {
    set t | t in s.outcomes && s.outcomes[t].Done? && s.outcomes[t].result.Decided?
            && Allows(s.outcomes[t].result.decision, key) :: s.outcomes[t].result.decision
  }

  lemma AnswerOnLog(c: Config, run: seq<State>, i: nat, b: NodeId, t: nat)
    requires IsRun(c, run) && RunsLimiter(c) && i < |run| && MostApplied(c, run[i], b)
    requires t in run[i].outcomes && run[i].outcomes[t].Done?
    ensures var s, n := run[i], run[i].nodes[b];
            && t in s.tickets && 1 <= s.tickets[t].index <= n.applied < |n.log|
            && n.log[s.tickets[t].index].term == s.tickets[t].term
            && ResultAt(c, n.log, s.tickets[t].index) == Some(s.outcomes[t].result)
  {
    AnsweredIsApplied(c, run, i, t);
    AppliedExactlyOnce(c, run, i, b);
    ResultIsOwn(c, run, i, i, t, b);
  }

  /** What is reported was made on the log of the most advanced member. */
  lemma ReportedMadeOn(c: Config, run: seq<State>, i: nat, b: NodeId, t: nat)
    requires IsRun(c, run) && RunsLimiter(c) && i < |run| && MostApplied(c, run[i], b)
    requires t in run[i].outcomes && run[i].outcomes[t].Done? && run[i].outcomes[t].result.Decided?
    ensures MadeOn(c, run[i].nodes[b].log, run[i].nodes[b].applied, run[i].outcomes[t].result.decision)
  {
    AnswerOnLog(c, run, i, b, t);
    CommittedJustified(c, run, i, b);
    ReportedWasMade(c, run[i].nodes[b].log, run[i].tickets[t].index);
  }

  /** Two proposers never share a fresh decision. */
  lemma FreshDecisionsDiffer(c: Config, run: seq<State>, i: nat, t: nat, u: nat)
    requires IsRun(c, run) && RunsLimiter(c) && i < |run| && t != u
    requires forall x :: x in {t, u} ==> x in run[i].outcomes && run[i].outcomes[x].Done?
    requires forall x :: x in {t, u} ==> run[i].outcomes[x].result.Decided? && !run[i].outcomes[x].result.duplicate
    ensures run[i].outcomes[t].result.decision.logIndex != run[i].outcomes[u].result.decision.logIndex
  {
    var s := run[i];
    RunInv(c, run, i);
    var b := MostAppliedExists(s, c.servers);
    var log := s.nodes[b].log;
    AnswerOnLog(c, run, i, b, t);
    AnswerOnLog(c, run, i, b, u);
    FreshNamesItsEntry(c, log, s.tickets[t].index);
    FreshNamesItsEntry(c, log, s.tickets[u].index);
    RunAnswers(c, run, i);
    assert SameEntry(s, t, u) ==> t == u;
  }

  /** The bound, at any member that has applied the most. */
  lemma NeverOverAllowsAt(c: Config, run: seq<State>, i: nat, b: NodeId, key: Key)
    requires IsRun(c, run) && RunsLimiter(c) && i < |run| && MostApplied(c, run[i], b) && ProposedInTime(run[i])
    ensures var n := run[i].nodes[b];
            && n.applied < |n.log|
            && Cost(AllowedSoFar(run[i], key)) as real + Balance(n.app, key)
               <= Granted(EMPTY_STATE, Upto(n.log, n.applied), key)
  {
    var s, n := run[i], run[i].nodes[b];
    AppliedInTime(c, run, i, b);
    AppliedIsRun(c, run, i, b);
    var D := AllowedSoFar(s, key);
    forall d | d in D ensures MadeOn(c, n.log, n.applied, d) && Allows(d, key) {
      var t :| && t in s.outcomes && s.outcomes[t].Done? && s.outcomes[t].result.Decided?
               && s.outcomes[t].result.decision == d;
      ReportedMadeOn(c, run, i, b, t);
    }
    CostWithinSpent(c, n.log, n.applied, D, key);
    EmptyStoreOk();
    Conservation(EMPTY_STATE, Upto(n.log, n.applied), key);
  }

  /** Over any run, at any moment, for any bucket: all the decisions reported as allowed so
      far, plus the balance left at a most advanced member, are within the grant of
      that member's applied log. */
  lemma NeverOverAllows(c: Config, run: seq<State>, i: nat, key: Key) returns (b: NodeId)
    requires IsRun(c, run) && RunsLimiter(c) && i < |run| && ProposedInTime(run[i])
    ensures MostApplied(c, run[i], b)
    ensures var n := run[i].nodes[b];
            && n.applied < |n.log|
            && Cost(AllowedSoFar(run[i], key)) as real + Balance(n.app, key)
               <= Granted(EMPTY_STATE, Upto(n.log, n.applied), key)
  {
    RunInv(c, run, i);
    b := MostAppliedExists(run[i], c.servers);
    NeverOverAllowsAt(c, run, i, b, key);
  }

  /** With a policy whose rate does not change: one capacity, plus the rate times the
      bucket time since the bucket's first decision. */
  lemma NeverOverAllowsAtOneRate(c: Config, run: seq<State>, i: nat, b: NodeId, key: Key, r: Rate)
    requires IsRun(c, run) && RunsLimiter(c) && i < |run| && MostApplied(c, run[i], b) && ProposedInTime(run[i])
    requires run[i].nodes[b].applied < |run[i].nodes[b].log|
    requires OneRate(Upto(run[i].nodes[b].log, run[i].nodes[b].applied), key, r)
    ensures var n := run[i].nodes[b];
            Cost(AllowedSoFar(run[i], key)) as real + Balance(n.app, key)
            <= GrantBy(n.app, key, r, OpenedAt(Upto(n.log, n.applied), key))
  {
    NeverOverAllowsAt(c, run, i, b, key);
    AppliedInTime(c, run, i, b);
    AppliedIsRun(c, run, i, b);
    GrantedAtOneRate(Upto(run[i].nodes[b].log, run[i].nodes[b].applied), key, r);
  }
}
