/**
  A member's tables in a run.  The node hands its committed entries to the limiter, which
  applies each in one transaction on the byte-keyed tables.  Started level with a member
  of any run, the tables stay level with it: what the transaction leaves and reports
  is what the cluster's apply step says, and an entry that fails moves neither.
 */
module MemberTables {
  import opened Models
  import opened RaftNode
  import opened Cluster
  import opened ClusterSafety
  import opened Handlers
  import opened GlobalBudget
  import opened StoreInvariant
  import Limiter = StateMachine
  import Encoding
  import opened StateStore
  import StateMachineTx

  /** The tables hold the member's application state and applied checkpoint. */
  ghost predicate Level(tx: StateTx, n: NodeState)
    reads tx
  {
    tx.Valid() && tx.S == n.app && tx.lastApplied == n.applied
  }

  lemma ExtendRun(c: Config, run: seq<State>, a: Action) returns (longer: seq<State>)
    requires IsRun(c, run) && Shaped(c, run[|run| - 1]) && Enabled(c, run[|run| - 1], a)
    ensures IsRun(c, longer) && longer == run + [Do(c, run[|run| - 1], a)]
  {
    longer := run + [Do(c, run[|run| - 1], a)];
    forall i | 0 <= i < |longer| - 1 ensures StepAt(c, longer, i) {
      if i < |run| - 1 { assert StepAt(c, run, i); }
    }
  }

  /** The run ends with this member in state n, its proposals stamped in time. */
  ghost predicate EndsWith(c: Config, run: seq<State>, id: NodeId, n: NodeState) {
    && IsRun(c, run) && RunsLimiter(c) && id in c.servers && ProposedInTime(run[|run| - 1])
    && id in run[|run| - 1].nodes && run[|run| - 1].nodes[id] == n
  }

  lemma AppliesNext(c: Config, run: seq<State>, id: NodeId, n: NodeState) returns (longer: seq<State>)
    requires EndsWith(c, run, id, n) && CanApply(c, n)
    ensures EndsWith(c, longer, id, ApplyNext(c, n)) && run <= longer
  {
    RunInv(c, run, |run| - 1);
    longer := ExtendRun(c, run, ApplyEntry(id));
  }

  /** What the limiter makes of the next entry is what the cluster's apply step says. */
  lemma NextIs(c: Config, n: NodeState)
    requires RunsLimiter(c) && n.applied < n.commit < |n.log|
    ensures var k := n.applied + 1;
            var x := Limiter.ApplyEntry(n.app, k, n.log[k].term, n.log[k]);
            && CanApply(c, n) == x.Applied?
            && (CanApply(c, n) ==> x == Applied(ApplyNext(c, n).app, NextResult(c, n)) && ApplyNext(c, n).applied == k)
  {
  }

  lemma TablesFit(c: Config, run: seq<State>, id: NodeId, n: NodeState)
    requires EndsWith(c, run, id, n)
    ensures StoreOk(n.app)
  {
    StoresStayOk(c, run, |run| - 1, id);
  }

  method ApplyToTables(tx: StateTx, entry: LogEntry, ghost c: Config, ghost n: NodeState) returns (r: Option<Result>)
    requires RunsLimiter(c) && Level(tx, n) && StoreOk(n.app) && n.applied < n.commit < |n.log| <= Encoding.U64_LIMIT
    requires entry == n.log[n.applied + 1]
    modifies tx
    ensures r.Some? == CanApply(c, n) && Level(tx, if r.Some? then ApplyNext(c, n) else n)
    ensures r.Some? ==> r.value == NextResult(c, n)
  {
    NextIs(c, n);
    r := StateMachineTx.ApplyEntry(tx, tx.lastApplied + 1, entry.term, entry);
  }

  /** One committed entry, in the tables and in the cluster. */
  method ApplyNextEntry(tx: StateTx, entry: LogEntry, ghost c: Config, ghost run: seq<State>, ghost id: NodeId,
                        ghost n: NodeState) returns (r: Option<Result>, ghost longer: seq<State>)
    requires EndsWith(c, run, id, n) && Level(tx, n) && n.applied < n.commit < |n.log| <= Encoding.U64_LIMIT
    requires entry == n.log[n.applied + 1]
    modifies tx
    ensures r.Some? == CanApply(c, n) && run <= longer
    ensures var m := if r.Some? then ApplyNext(c, n) else n; EndsWith(c, longer, id, m) && Level(tx, m)
    ensures r.Some? ==> r.value == NextResult(c, n)
  {
    TablesFit(c, run, id, n);
    r := ApplyToTables(tx, entry, c, n);
    if r.Some? { longer := AppliesNext(c, run, id, n); } else { longer := run; }
  }

  /** Everything committed: the tables end where draining the member ends. */
  method ApplyAll(tx: StateTx, log: seq<LogEntry>, commit: nat, ghost c: Config, ghost run: seq<State>,
                  ghost id: NodeId, ghost n: NodeState) returns (ghost longer: seq<State>)
    requires EndsWith(c, run, id, n) && Level(tx, n) && log == n.log && commit == n.commit < |log| <= Encoding.U64_LIMIT
    modifies tx
    ensures EndsWith(c, longer, id, Drain(c, n).node) && Level(tx, Drain(c, n).node) && run <= longer
  {
    longer := run;
    ghost var m := n;
    while tx.lastApplied < commit
      invariant EndsWith(c, longer, id, m) && Level(tx, m) && run <= longer
      invariant m.log == log && m.commit == commit && Drain(c, m).node == Drain(c, n).node
      decreases commit - tx.lastApplied
    {
      var r;
      ghost var before := m;
      r, longer := ApplyNextEntry(tx, log[tx.lastApplied + 1], c, longer, id, m);
      if r.None? { break; }
      m := ApplyNext(c, before);
    }
  }
}
