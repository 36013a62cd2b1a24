/**
  Safety of every run of the cluster: the theorems of Figure 3 of the Raft paper,
  with losses, reordering, duplication and crashes.
 */
module ClusterSafety {
  import opened Models
  import opened RaftNode
  import opened Cluster
  import opened ClusterInvariant
  import opened ClusterSteps
  import opened ClusterPreserve
  import opened ClusterReplicate

  ghost predicate Step(c: Config, s: State, s': State) {
    Shaped(c, s) && exists a :: Enabled(c, s, a) && s' == Do(c, s, a)
  }

  /** A run: consecutive states of the cluster, from its first boot. */
  ghost predicate IsRun(c: Config, run: seq<State>) {
    && ConfigOk(c) && "" !in c.servers
    && |run| >= 1 && run[0] == InitState(c)
    && forall i {:trigger StepAt(c, run, i)} :: 0 <= i < |run| - 1 ==> StepAt(c, run, i)
  }

  ghost predicate StepAt(c: Config, run: seq<State>, i: nat)
    requires i + 1 < |run|
  {
    Step(c, run[i], run[i + 1])
  }

  lemma InitInv(c: Config)
    requires "" !in c.servers
    ensures Inv(c, InitState(c))
  {
    var s := InitState(c);
    forall id | id in c.servers ensures NodeOk(c, s, id) {
      assert s.nodes[id].log == [SENTINEL];
    }
  }

  lemma VotingKeeps(c: Config, s: State, a: Action)
    requires ConfigOk(c) && Inv(c, s) && Enabled(c, s, a) && IsVoting(a)
    ensures Inv(c, Do(c, s, a)) && Grows(c, s, Do(c, s, a), a.id)
  {
    match a
    case Timeout(id) => KeepTimeout(c, s, id);
    case ObserveTerm(id, m) => KeepObserveTerm(c, s, id, TermOf(m));
    case AnswerVote(id, m) => KeepAnswerVote(c, s, id, m);
    case CountVote(id, m) => KeepCountVote(c, s, id, m);
    case LoseVote(id, p, t) => KeepLoseVote(c, s, id, p, t);
  }

  lemma CopyingKeeps(c: Config, s: State, a: Action)
    requires ConfigOk(c) && Inv(c, s) && Enabled(c, s, a) && IsCopying(a)
    ensures Inv(c, Do(c, s, a)) && Grows(c, s, Do(c, s, a), a.id)
  {
    match a
    case AnswerAppend(id, m) => KeepAnswerAppend(c, s, id, m);
    case LearnCommit(id, m) => KeepLearn(c, s, id, m.areq);
    case RecordAppend(id, m) => KeepRecord(c, s, id, m);
    case Send(id, p) => KeepSend(c, s, id, p);
  }

  /** Every step keeps the invariant and only adds to the history. */
  lemma StepKeeps(c: Config, s: State, a: Action)
    requires ConfigOk(c) && Inv(c, s) && Enabled(c, s, a)
    ensures Inv(c, Do(c, s, a)) && Grows(c, s, Do(c, s, a), a.id)
  {
    if IsVoting(a) {
      VotingKeeps(c, s, a);
    } else if IsCopying(a) {
      CopyingKeeps(c, s, a);
    } else {
      match a
      case AdvanceCommit(id, k) => KeepAdvance(c, s, id, k);
      case ApplyEntry(id) => KeepApply(c, s, id);
      case ProposeAt(id, command, ticket) => KeepPropose(c, s, id, command, ticket);
      case Deregister(id, k) => KeepDeregister(c, s, id, k);
      case Crash(id) => KeepCrash(c, s, id);
    }
  }

  lemma StepInv(c: Config, s: State, s': State)
    requires ConfigOk(c) && Inv(c, s) && Step(c, s, s')
    ensures Inv(c, s')
  {
    var a :| Enabled(c, s, a) && s' == Do(c, s, a);
    StepKeeps(c, s, a);
  }

  lemma {:induction false} RunInv(c: Config, run: seq<State>, i: nat)
    requires IsRun(c, run) && i < |run|
    ensures Inv(c, run[i])
  {
    if i == 0 {
      InitInv(c);
    } else {
      RunInv(c, run, i - 1);
      NextInv(c, run, i);
    }
  }

  lemma NextInv(c: Config, run: seq<State>, i: nat)
    requires IsRun(c, run) && 0 < i < |run| && Inv(c, run[i - 1])
    ensures Inv(c, run[i])
  {
    assert StepAt(c, run, i - 1);
    StepInv(c, run[i - 1], run[i]);
  }

  /** The action behind the i-th step of a run. */
  lemma RunAction(c: Config, run: seq<State>, i: nat) returns (a: Action)
    requires IsRun(c, run) && i + 1 < |run|
    ensures Inv(c, run[i]) && Enabled(c, run[i], a) && run[i + 1] == Do(c, run[i], a)
  {
    RunInv(c, run, i);
    assert StepAt(c, run, i);
    a :| Enabled(c, run[i], a) && run[i + 1] == Do(c, run[i], a);
  }

  lemma RunStep(c: Config, run: seq<State>, i: nat) returns (a: Action)
    requires IsRun(c, run) && i + 1 < |run|
    ensures Grows(c, run[i], run[i + 1], a.id)
  {
    a := RunAction(c, run, i);
    StepKeeps(c, run[i], a);
  }

  // ---- what persists along a run ----

  lemma {:induction false} ReignPersists(c: Config, run: seq<State>, i: nat, j: nat, t: nat)
    requires IsRun(c, run) && i <= j < |run| && t in run[i].reigns
    ensures t in run[j].reigns
    ensures run[j].reigns[t].leader == run[i].reigns[t].leader && run[j].reigns[t].base == run[i].reigns[t].base
  {
    if i == j {
    } else {
      ReignPersists(c, run, i, j - 1, t);
      var a := RunStep(c, run, j - 1);
      assert ReignGrows(run[j - 1].reigns, run[j].reigns, t, a.id);
    }
  }

  lemma {:induction false} JustifiedPersists(
    c: Config, run: seq<State>, i: nat, j: nat, log: seq<LogEntry>, index: nat, term: nat)
    requires IsRun(c, run) && i <= j < |run| && Justified(run[i].reigns, run[i].commits, log, index, term)
    ensures Justified(run[j].reigns, run[j].commits, log, index, term)
  {
    if i == j {
    } else {
      JustifiedPersists(c, run, i, j - 1, log, index, term);
      var s, s' := run[j - 1], run[j];
      var a := RunStep(c, run, j - 1);
      JustifiedGrows(s.reigns, s'.reigns, s.commits, s'.commits, a.id, log, index, term, term);
    }
  }

  lemma CommittedJustified(c: Config, run: seq<State>, i: nat, a: NodeId)
    requires IsRun(c, run) && i < |run| && a in c.servers
    ensures a in run[i].nodes
    ensures var n := run[i].nodes[a];
            && n.applied <= n.commit < |n.log| && WellFormed(n.log)
            && Justified(run[i].reigns, run[i].commits, n.log, n.commit, n.term)
  {
    RunInv(c, run, i);
    assert NodeOk(c, run[i], a);
  }

  // ---- the theorems ----

  /** Election Safety: no term ever has two leaders, at one moment or at two. */
  lemma ElectionSafety(c: Config, run: seq<State>, i: nat, j: nat, a: NodeId, b: NodeId)
    requires IsRun(c, run) && i < |run| && j < |run| && a in c.servers && b in c.servers
    requires a in run[i].nodes && b in run[j].nodes
    requires run[i].nodes[a].role == Leader && run[j].nodes[b].role == Leader
    requires run[i].nodes[a].term == run[j].nodes[b].term
    ensures a == b
  {
    RunInv(c, run, i);
    RunInv(c, run, j);
    assert NodeOk(c, run[i], a) && NodeOk(c, run[j], b);
    if i <= j {
      ReignPersists(c, run, i, j, run[i].nodes[a].term);
    } else {
      ReignPersists(c, run, j, i, run[i].nodes[a].term);
    }
  }

  /** Log Matching: every log is contiguous with rising terms, and two logs that
      hold an entry of the same index and term agree up to it. */
  lemma LogMatchingAlways(c: Config, run: seq<State>, i: nat, a: NodeId, b: NodeId, k: nat)
    requires IsRun(c, run) && i < |run| && a in c.servers && b in c.servers
    ensures a in run[i].nodes && b in run[i].nodes
    ensures WellFormed(run[i].nodes[a].log) && LastTerm(run[i].nodes[a].log) <= run[i].nodes[a].term
    ensures var p, q := run[i].nodes[a].log, run[i].nodes[b].log;
            k < |p| && k < |q| && p[k].term == q[k].term ==> p[..k + 1] == q[..k + 1]
  {
    RunInv(c, run, i);
    assert NodeOk(c, run[i], a) && NodeOk(c, run[i], b);
    var p, q := run[i].nodes[a].log, run[i].nodes[b].log;
    if k < |p| && k < |q| && p[k].term == q[k].term { LogMatching(run[i].reigns, p, q, k); }
  }

  /** A prefix justified by a term is already in the log any later leader started with. */
  lemma JustifiedInBase(c: Config, s: State, log: seq<LogEntry>, index: nat, term: nat, u: nat)
    requires ConfigOk(c) && Inv(c, s) && WellFormed(log) && Justified(s.reigns, s.commits, log, index, term)
    requires term < u && u in s.reigns
    ensures Has(log, s.reigns[u].base, index)
  {
    var R := s.reigns;
    ReignFacts(c, s, u);
    if index == 0 {
      assert log[..1] == [SENTINEL] == R[u].base[..1];
    } else {
      var t :| t in s.commits && t in R && t <= term && index <= s.commits[t].index && Has(log, R[t].log, index);
      LeaderCompleteness(c, s, t, u);
      assert Has(R[t].log, R[u].base, s.commits[t].index);
      HasTrans(log, R[t].log, R[u].base, index, s.commits[t].index, index);
    }
  }

  /** Leader Completeness, across moments: what a member of term t ever commits is on the
      log of every leader of a later term at every moment of its office, before the commit
      or after it, and on the log of t's own leader from then on. */
  lemma LeadersHaveCommitted(c: Config, run: seq<State>, i: nat, j: nat, a: NodeId, b: NodeId)
    requires IsRun(c, run) && i < |run| && j < |run| && a in c.servers && b in c.servers
    requires a in run[i].nodes && b in run[j].nodes && run[j].nodes[b].role == Leader
    requires var t, u := run[i].nodes[a].term, run[j].nodes[b].term;
             t < u || (t == u && i <= j)
    ensures var n, m := run[i].nodes[a], run[j].nodes[b];
            n.commit < |n.log| && n.commit < |m.log| && m.log[..n.commit + 1] == n.log[..n.commit + 1]
  {
    var n, m := run[i].nodes[a], run[j].nodes[b];
    CommittedJustified(c, run, i, a);
    if i <= j {
      JustifiedPersists(c, run, i, j, n.log, n.commit, n.term);
      LeaderHolds(c, run, j, b, n.log, n.commit, n.term);
    } else {
      RunInv(c, run, j);
      assert NodeOk(c, run[j], b) && ReignOk(c, run[j].past, run[j].reigns, m.term);
      ReignPersists(c, run, j, i, m.term);
      RunInv(c, run, i);
      JustifiedInBase(c, run[i], n.log, n.commit, n.term, m.term);
      HasPrefix(n.log, run[j].reigns[m.term].base, m.log, n.commit);
    }
  }

  lemma LeaderHolds(c: Config, run: seq<State>, j: nat, b: NodeId, log: seq<LogEntry>, index: nat, term: nat)
    requires IsRun(c, run) && j < |run| && b in c.servers && b in run[j].nodes && run[j].nodes[b].role == Leader
    requires WellFormed(log) && Justified(run[j].reigns, run[j].commits, log, index, term)
    requires term <= run[j].nodes[b].term
    ensures Has(log, run[j].nodes[b].log, index)
  {
    RunInv(c, run, j);
    assert NodeOk(c, run[j], b);
    JustifiedReaches(c, run[j], log, index, term, run[j].nodes[b].term);
  }

  /** State Machine Safety: what two members have committed, at any two moments,
      agrees as far as both go. */
  lemma CommittedAgree(c: Config, run: seq<State>, i: nat, j: nat, a: NodeId, b: NodeId, k: nat)
    requires IsRun(c, run) && i < |run| && j < |run| && a in c.servers && b in c.servers
    requires a in run[i].nodes && b in run[j].nodes
    requires k <= run[i].nodes[a].commit && k <= run[j].nodes[b].commit
    ensures var p, q := run[i].nodes[a].log, run[j].nodes[b].log;
            k < |p| && k < |q| && p[..k + 1] == q[..k + 1]
  {
    var n, m, last := run[i].nodes[a], run[j].nodes[b], if i <= j then j else i;
    CommittedJustified(c, run, i, a);
    CommittedJustified(c, run, j, b);
    JustifiedPersists(c, run, i, last, n.log, n.commit, n.term);
    JustifiedPersists(c, run, j, last, m.log, m.commit, m.term);
    RunInv(c, run, last);
    if n.commit <= m.commit {
      JustifiedAgree(c, run[last], n.log, n.commit, n.term, m.log, m.commit, m.term);
      HasAt(n.log, m.log, n.commit, k);
    } else {
      JustifiedAgree(c, run[last], m.log, m.commit, m.term, n.log, n.commit, n.term);
      HasAt(m.log, n.log, m.commit, k);
    }
  }

  // ---- committed entries are never truncated ----

  ghost predicate CommitKept(n: NodeState, m: NodeState) {
    n.commit <= m.commit && n.applied <= m.applied && n.term <= m.term && Has(m.log, n.log, n.commit)
  }

  lemma SameLogKept(n: NodeState, m: NodeState)
    requires n.commit < |n.log| && n.log <= m.log
    requires n.commit <= m.commit && n.applied <= m.applied && n.term <= m.term
    ensures CommitKept(n, m)
  {
    assert n.log[..n.commit + 1] == m.log[..n.commit + 1];
  }

  lemma AppendKeepsCommitted(c: Config, s: State, id: NodeId, msg: Message)
    requires ConfigOk(c) && Inv(c, s) && id in c.servers && msg in s.net && msg.AppendCall? && msg.to == id
    requires msg.areq.term <= s.nodes[id].term && s.nodes[id].commit < |s.nodes[id].log|
    ensures CommitKept(s.nodes[id], DoAnswerAppend(c, s, id, msg).nodes[id])
  {
    var n, req := s.nodes[id], msg.areq;
    if req.version != PROTOCOL_VERSION || req.clusterId != c.clusterId || req.term < n.term {
      SameLogKept(n, n);
    } else if !PrevMatches(n.log, req) {
      SameLogKept(n, StepDown(n, req.term, req.leader));
    } else {
      FollowsFrom(c, s, id, req);
      MergeKeepsCommitted(c, s, id, req);
      assert DoAnswerAppend(c, s, id, msg).nodes[id].log == Reconcile(n.log, req.prevIndex, req.entries);
    }
  }

  /** Apart from log repair, a step only extends its member's log. */
  lemma StepExtendsLog(c: Config, s: State, a: Action)
    requires Shaped(c, s) && Enabled(c, s, a) && !a.AnswerAppend?
    ensures var n, m := s.nodes[a.id], Do(c, s, a).nodes[a.id];
            n.log <= m.log && n.commit <= m.commit && n.applied <= m.applied && n.term <= m.term
  {
  }

  lemma ActorKeepsCommitted(c: Config, s: State, a: Action)
    requires ConfigOk(c) && Inv(c, s) && Enabled(c, s, a)
    ensures CommitKept(s.nodes[a.id], Do(c, s, a).nodes[a.id])
  {
    var n := s.nodes[a.id];
    assert n.commit < |n.log| by { assert NodeOk(c, s, a.id); }
    if a.AnswerAppend? {
      AppendKeepsCommitted(c, s, a.id, a.msg);
    } else {
      StepExtendsLog(c, s, a);
      SameLogKept(n, Do(c, s, a).nodes[a.id]);
    }
  }

  lemma StepKeepsCommitted(c: Config, s: State, a: Action, id: NodeId)
    requires ConfigOk(c) && Inv(c, s) && Enabled(c, s, a) && id in c.servers
    ensures id in Do(c, s, a).nodes && CommitKept(s.nodes[id], Do(c, s, a).nodes[id])
  {
    StepKeeps(c, s, a);
    if id == a.id {
      ActorKeepsCommitted(c, s, a);
    } else {
      assert NodeOk(c, s, id);
      SameLogKept(s.nodes[id], s.nodes[id]);
    }
  }

  lemma RunStepKeepsCommitted(c: Config, run: seq<State>, i: nat, id: NodeId)
    requires IsRun(c, run) && i + 1 < |run| && id in c.servers
    ensures id in run[i].nodes && id in run[i + 1].nodes && CommitKept(run[i].nodes[id], run[i + 1].nodes[id])
  {
    var a := RunAction(c, run, i);
    StepKeepsCommitted(c, run[i], a, id);
  }

  /** A member's commit index never falls, and the entries below it never change,
      through any number of steps and crashes. */
  lemma {:induction false} CommittedStays(c: Config, run: seq<State>, i: nat, j: nat, id: NodeId)
    requires IsRun(c, run) && i <= j < |run| && id in c.servers
    ensures id in run[i].nodes && id in run[j].nodes
    ensures CommitKept(run[i].nodes[id], run[j].nodes[id])
  {
    CommittedJustified(c, run, i, id);
    if i == j {
    } else {
      CommittedStays(c, run, i, j - 1, id);
      RunStepKeepsCommitted(c, run, j - 1, id);
      var n, m, l := run[i].nodes[id], run[j - 1].nodes[id], run[j].nodes[id];
      HasTrans(l.log, m.log, n.log, m.commit, n.commit, n.commit);
    }
  }
}
