/**
  Where committed entries live.  From the moment any member commits a prefix, some
  majority holds it for good, whether or not its members know of the commit; and a member
  that has reached a committing term keeps it.  What a step cuts from a log is given
  exactly.  SmallClusters.dfy goes on to show that in clusters of the program's size no
  step ever cuts a committed entry, and StaleLeader.dfy that in larger ones some do.
 */
module ClusterHolders {
  import opened Models
  import opened RaftNode
  import opened Cluster
  import opened ClusterInvariant
  import opened ClusterSteps
  import opened ClusterReplicate
  import opened ClusterSafety

  // ---- what a step cuts ----

  /** The first entry of the batch that is not already in the log falls at or below k. */
  predicate Conflicts(log: seq<LogEntry>, req: AppendReq, k: nat) {
    && PrevMatches(log, req)
    && var p := Present(log, req.prevIndex, req.entries, 0);
    p < |req.entries| && req.prevIndex + 1 + p <= k
  }

  lemma MergeCutsIff(log: seq<LogEntry>, req: AppendReq, k: nat)
    requires PrevMatches(log, req) && k < |log|
    ensures !Has(Reconcile(log, req.prevIndex, req.entries), log, k) <==> Conflicts(log, req, k)
  {
    var p, merged := Present(log, req.prevIndex, req.entries, 0), Reconcile(log, req.prevIndex, req.entries);
    var at := req.prevIndex + 1 + p;
    if p < |req.entries| {
      if k < at {
        assert merged[..k + 1] == log[..k + 1];
      } else {
        assert !Holds(log, req.prevIndex, req.entries, p);
        assert merged[at] == req.entries[p];
        DifferAt(merged, log, k, at);
      }
    }
  }

  lemma DifferAt(log: seq<LogEntry>, ref: seq<LogEntry>, k: nat, at: nat)
    requires at <= k < |ref| && at < |log| && log[at] != ref[at]
    ensures !Has(log, ref, k)
  {
    if Has(log, ref, k) {
      HasAt(log, ref, k, at);
    }
  }

  /** The one kind of step that cuts: a request of the member's own term that conflicts. */
  ghost predicate Cuts(c: Config, s: State, a: Action, id: NodeId, k: nat)
    requires id in s.nodes
  {
    && a.AnswerAppend? && a.id == id && a.msg.AppendCall?
    && var req := a.msg.areq;
    && req.version == PROTOCOL_VERSION && req.clusterId == c.clusterId && req.term >= s.nodes[id].term
    && Conflicts(s.nodes[id].log, req, k)
  }

  lemma RepairCutsIff(c: Config, s: State, id: NodeId, msg: Message, k: nat)
    requires Shaped(c, s) && id in c.servers && msg.AppendCall? && k < |s.nodes[id].log|
    ensures id in DoAnswerAppend(c, s, id, msg).nodes
    ensures !Has(DoAnswerAppend(c, s, id, msg).nodes[id].log, s.nodes[id].log, k)
            <==> Cuts(c, s, AnswerAppend(id, msg), id, k)
  {
    var n, req := s.nodes[id], msg.areq;
    var genuine := req.version == PROTOCOL_VERSION && req.clusterId == c.clusterId && req.term >= n.term;
    if genuine && PrevMatches(n.log, req) {
      MergeCutsIff(n.log, req, k);
      assert DoAnswerAppend(c, s, id, msg).nodes[id].log == Reconcile(n.log, req.prevIndex, req.entries);
    } else {
      assert DoAnswerAppend(c, s, id, msg).nodes[id].log == n.log;
    }
  }

  /** A step changes a member's log at or below k exactly when it is such a request. */
  lemma StepCutsIff(c: Config, s: State, a: Action, id: NodeId, k: nat)
    requires ConfigOk(c) && Inv(c, s) && Enabled(c, s, a) && id in c.servers && k < |s.nodes[id].log|
    ensures id in Do(c, s, a).nodes
    ensures !Has(Do(c, s, a).nodes[id].log, s.nodes[id].log, k) <==> Cuts(c, s, a, id, k)
  {
    if a.id == id && a.AnswerAppend? {
      RepairCutsIff(c, s, id, a.msg, k);
    } else {
      OtherStepKeeps(c, s, a, id, k);
    }
  }

  lemma OtherStepKeeps(c: Config, s: State, a: Action, id: NodeId, k: nat)
    requires ConfigOk(c) && Inv(c, s) && Enabled(c, s, a) && id in c.servers && k < |s.nodes[id].log|
    requires a.id != id || !a.AnswerAppend?
    ensures id in Do(c, s, a).nodes && Has(Do(c, s, a).nodes[id].log, s.nodes[id].log, k)
  {
    if a.id == id {
      StepExtendsLog(c, s, a);
      HasPrefix(s.nodes[id].log, s.nodes[id].log, Do(c, s, a).nodes[id].log, k);
    } else {
      StepKeeps(c, s, a);
    }
  }

  // ---- a member that has reached the committing term keeps the entry ----

  /** Some leader, of whatever term, committed index k, and this log agrees with it there. */
  ghost predicate Committed(s: State, log: seq<LogEntry>, k: nat, t: nat) {
    t in s.commits && t in s.reigns && k <= s.commits[t].index && Has(log, s.reigns[t].log, k)
  }

  lemma ReachedTermKeeps(c: Config, s: State, a: Action, id: NodeId, k: nat)
    requires ConfigOk(c) && Inv(c, s) && Enabled(c, s, a) && id in c.servers && k < |s.nodes[id].log|
    requires Justified(s.reigns, s.commits, s.nodes[id].log, k, s.nodes[id].term)
    ensures !Cuts(c, s, a, id, k)
  {
    var n := s.nodes[id];
    if Cuts(c, s, a, id, k) {
      var req := a.msg.areq;
      MergeCutsIff(n.log, req, k);
      FollowsFrom(c, s, id, req);
      assert NodeOk(c, s, id);
      JustifiedReaches(c, s, n.log, k, n.term, req.term);
      MergeHolds(c, s, id, req, k);
      assert false;
    }
  }

  /** Only a leader of an earlier term than every leader that committed the entry can cut it. */
  lemma OnlyStaleLeadersCut(c: Config, s: State, a: Action, id: NodeId, k: nat, t: nat)
    requires ConfigOk(c) && Inv(c, s) && Enabled(c, s, a) && id in c.servers && k < |s.nodes[id].log|
    requires Committed(s, s.nodes[id].log, k, t) && Cuts(c, s, a, id, k)
    ensures a.msg.areq.term == s.nodes[id].term < t
  {
    var n := s.nodes[id];
    if t <= n.term {
      assert Justified(s.reigns, s.commits, n.log, k, n.term);
      ReachedTermKeeps(c, s, a, id, k);
    }
  }

  /** Over whole runs: once a member's term has reached a term that committed the entry,
      the member keeps it for good. */
  lemma {:induction false} HolderKeeps(c: Config, run: seq<State>, i: nat, j: nat, id: NodeId, k: nat)
    requires IsRun(c, run) && i <= j < |run| && id in c.servers && id in run[i].nodes && k < |run[i].nodes[id].log|
    requires Justified(run[i].reigns, run[i].commits, run[i].nodes[id].log, k, run[i].nodes[id].term)
    ensures id in run[j].nodes && Has(run[j].nodes[id].log, run[i].nodes[id].log, k)
    ensures Justified(run[j].reigns, run[j].commits, run[j].nodes[id].log, k, run[j].nodes[id].term)
  {
    if i == j {
    } else {
      HolderKeeps(c, run, i, j - 1, id, k);
      var s := run[j - 1];
      var a := RunAction(c, run, j - 1);
      HolderStep(c, s, a, id, k);
      var first, before, after := run[i].nodes[id].log, s.nodes[id].log, run[j].nodes[id].log;
      HasTrans(after, before, first, k, k, k);
    }
  }

  lemma HolderStep(c: Config, s: State, a: Action, id: NodeId, k: nat)
    requires ConfigOk(c) && Inv(c, s) && Enabled(c, s, a) && id in c.servers && k < |s.nodes[id].log|
    requires Justified(s.reigns, s.commits, s.nodes[id].log, k, s.nodes[id].term)
    ensures var s' := Do(c, s, a);
            && id in s'.nodes && Has(s'.nodes[id].log, s.nodes[id].log, k)
            && Justified(s'.reigns, s'.commits, s'.nodes[id].log, k, s'.nodes[id].term)
  {
    var s', n := Do(c, s, a), s.nodes[id];
    ReachedTermKeeps(c, s, a, id, k);
    StepCutsIff(c, s, a, id, k);
    StepKeepsCommitted(c, s, a, id);
    StepKeeps(c, s, a);
    var m := s'.nodes[id];
    JustifiedGrows(s.reigns, s'.reigns, s.commits, s'.commits, a.id, n.log, k, n.term, m.term);
    JustifiedSame(s'.reigns, s'.commits, n.log, m.log, k, m.term);
  }

  // ---- a majority holds it ----

  ghost predicate AllHold(s: State, holders: set<NodeId>, log: seq<LogEntry>, k: nat) {
    forall p {:trigger p in holders} :: p in holders ==> p in s.nodes && Has(s.nodes[p].log, log, k)
  }

  lemma HolderHas(c: Config, s: State, t: nat, p: NodeId)
    requires ConfigOk(c) && Inv(c, s) && t in s.commits && t in s.reigns && p in s.commits[t].holders
    ensures p in c.servers && p in s.nodes && Has(s.nodes[p].log, s.reigns[t].log, s.commits[t].index)
  {
    var k := s.commits[t].index;
    assert CommitmentOk(c, s.past, s.reigns, t, s.commits[t]);
    assert Acked(s.past, p, t, k);
    assert NodeOk(c, s, p);
    var n, hi := s.nodes[p], s.nodes[p].term + 1;
    assert Kept(s.reigns, n.log, t, k, hi);
    if Diverged(s.reigns, t, k, hi) {
      var u :| t < u < hi && u in s.reigns && !Has(s.reigns[u].base, s.reigns[t].log, k);
      LeaderCompleteness(c, s, t, u);
    }
  }

  /** The majority that a leader counted holds what it committed, in every state. */
  lemma CommittersHold(c: Config, s: State, log: seq<LogEntry>, k: nat, term: nat) returns (holders: set<NodeId>)
    requires ConfigOk(c) && Inv(c, s) && k > 0 && Justified(s.reigns, s.commits, log, k, term)
    ensures holders <= c.servers && |holders| >= c.quorum && AllHold(s, holders, log, k)
  {
    var t :| t in s.commits && t in s.reigns && t <= term && k <= s.commits[t].index && Has(log, s.reigns[t].log, k);
    holders := s.commits[t].holders;
    assert CommitmentOk(c, s.past, s.reigns, t, s.commits[t]);
    forall p | p in holders ensures p in s.nodes && Has(s.nodes[p].log, log, k) {
      HolderHas(c, s, t, p);
      assert Has(s.reigns[t].log, log, k);
      HasTrans(s.nodes[p].log, s.reigns[t].log, log, s.commits[t].index, k, k);
    }
  }

  /** Durability of a commit: at every moment after any member has committed a prefix, the
      logs of some majority hold it. */
  lemma MajorityHolds(c: Config, run: seq<State>, i: nat, j: nat, a: NodeId) returns (holders: set<NodeId>)
    requires IsRun(c, run) && i <= j < |run| && a in c.servers && a in run[i].nodes && run[i].nodes[a].commit > 0
    ensures holders <= c.servers && |holders| >= c.quorum
    ensures AllHold(run[j], holders, run[i].nodes[a].log, run[i].nodes[a].commit)
  {
    var n := run[i].nodes[a];
    CommittedJustified(c, run, i, a);
    JustifiedPersists(c, run, i, j, n.log, n.commit, n.term);
    RunInv(c, run, j);
    holders := CommittersHold(c, run[j], n.log, n.commit, n.term);
  }
}
