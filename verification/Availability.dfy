/**
  Any majority can serve.  From every reachable state, whatever was lost, delayed or crashed
  before, the members of a majority need only messages among themselves: one of them comes
  to lead, and a command proposed to it is committed and applied by all of them, and its
  proposer is told the result.
 */
module Availability {
  import opened Models
  import opened RaftNode
  import opened Cluster
  import opened ClusterInvariant
  import opened ClusterSafety
  import opened ClusterResults
  import opened ClusterWaiters
  import opened CommitChoice
  import opened Handlers
  import Repair = LogRepair
  import opened Events
  import opened Elections

  // ---- applying ----

  /** Applying stops only at the commit index or at an entry that fails. */
  lemma DrainStops(c: Config, n: NodeState)
    ensures !CanApply(c, Drain(c, n).node)
    decreases n.commit - n.applied
  {
  }

  lemma {:induction false} ReplaysBelow(c: Config, log: seq<LogEntry>, j: nat, k: nat)
    requires j <= k < |log| && Replay(c, log, k).Some?
    ensures Replay(c, log, j).Some?
  {
    if j < k { ReplaysBelow(c, log, j, k - 1); }
  }

  /** So a member that can apply no more has applied all it has committed, if that replays. */
  lemma AppliesAll(c: Config, n: NodeState)
    requires AppOk(c, n) && n.applied <= n.commit < |n.log| && !CanApply(c, n) && Replay(c, n.log, n.commit).Some?
    ensures n.applied == n.commit
  {
    if n.applied < n.commit { ReplaysBelow(c, n.log, n.applied + 1, n.commit); }
  }

  /** Applying tells the waiter of the last entry applied, */
  lemma {:induction false} DrainTells(c: Config, n: NodeState)
    requires n.applied < n.commit && n.commit in n.waiters && Drain(c, n).node.applied == n.commit
    ensures var told := Drain(c, n).told; n.waiters[n.commit] in told && told[n.waiters[n.commit]].Done?
    decreases n.commit - n.applied
  {
    var m := ApplyNext(c, n);
    if m.applied < n.commit { DrainTells(c, m); }
  }

  /** and leaves those that wait for later entries. */
  lemma {:induction false} DrainLeaves(c: Config, n: NodeState, k: nat)
    requires n.applied <= n.commit < k && k in n.waiters
    ensures var d := Drain(c, n).node; k in d.waiters && d.waiters[k] == n.waiters[k]
    decreases n.commit - n.applied
  {
    if CanApply(c, n) { DrainLeaves(c, ApplyNext(c, n), k); }
  }

  lemma {:induction false} DrainKeepsApp(c: Config, n: NodeState)
    requires AppOk(c, n)
    ensures AppOk(c, Drain(c, n).node)
    decreases n.commit - n.applied
  {
    if CanApply(c, n) {
      ApplyKeepsApp(c, n);
      DrainKeepsApp(c, ApplyNext(c, n));
    }
  }

  /** Recovery, at any moment of any run, leaves a follower with all that was persisted, no
      waiters, and everything it had committed applied, if that replays. */
  lemma RecoversAll(c: Config, run: seq<State>, i: nat, id: NodeId)
    requires IsRun(c, run) && i < |run| && id in c.servers
    ensures id in run[i].nodes
    ensures var n, m := run[i].nodes[id], OnRecover(c, run[i].nodes[id]).node;
            && m.role == Follower && m.waiters == map[]
            && m.term == n.term && m.vote == n.vote && m.log == n.log && m.commit == n.commit < |n.log|
            && (Replay(c, n.log, n.commit).Some? ==>
                  m.applied == n.commit && Replay(c, n.log, n.commit) == Some(m.app))
  {
    AppliedExactlyOnce(c, run, i, id);
    var n := Restart(run[i].nodes[id]);
    Repair.DrainKeeps(c, n);
    DrainStops(c, n);
    DrainKeepsApp(c, n);
    DrainBounded(c, n);
    if Replay(c, n.log, n.commit).Some? { AppliesAll(c, Drain(c, n).node); }
  }

  lemma DrainBounded(c: Config, n: NodeState)
    requires n.applied <= n.commit
    ensures Drain(c, n).node.applied <= n.commit && (n.waiters == map[] ==> Drain(c, n).node.waiters == map[])
    decreases n.commit - n.applied
  {
  }

  // ---- what the work keeps ----

  /** The member has committed the log through k, and applied it if it replays. */
  ghost predicate Caught(c: Config, f: NodeState, log: seq<LogEntry>, k: nat)
    requires k < |log|
  {
    f.commit >= k && Has(f.log, log, k) && (Replay(c, log, k).Some? ==> f.applied >= k)
  }

  /** Has not committed the last entry yet, or has done so properly. */
  ghost predicate InStep(c: Config, s: State, m: NodeId, log: seq<LogEntry>) {
    m in s.nodes && |log| >= 1 && (s.nodes[m].commit < |log| - 1 || Caught(c, s.nodes[m], log, |log| - 1))
  }

  /** The proposer of the last entry still waits, or has been told. */
  ghost predicate Told(c: Config, s: State, n: NodeState, k: nat, ticket: nat)
    requires k < |n.log|
  {
    if n.commit < k then k in n.waiters && n.waiters[k] == ticket
    else Replay(c, n.log, k).Some? ==> n.applied >= k && ticket in s.outcomes && s.outcomes[ticket].Done?
  }

  /** The leader of a group, with one entry to commit, the last of its log. */
  ghost predicate Serves(c: Config, s: State, group: set<NodeId>, id: NodeId, log: seq<LogEntry>, ticket: nat) {
    && LeadsGroup(s, group, id) && s.nodes[id].log == log
    && |log| >= 2 && log[|log| - 1].term == s.nodes[id].term && s.nodes[id].commit < |log|
    && Told(c, s, s.nodes[id], |log| - 1, ticket)
    && forall m {:trigger InStep(c, s, m, log)} :: m in group && m != id ==> InStep(c, s, m, log)
  }

  lemma Facts(c: Config, s: State, id: NodeId)
    requires Reached(c, s) && id in c.servers
    ensures Shaped(c, s) && ConfigOk(c)
    ensures var n := s.nodes[id]; AppOk(c, n) && n.applied <= n.commit < |n.log| && WellFormed(n.log)
  {
    var run :| IsRun(c, run) && run[|run| - 1] == s;
    RunInv(c, run, |run| - 1);
    AppliedExactlyOnce(c, run, |run| - 1, id);
    assert NodeOk(c, s, id);
  }

  lemma OutcomeStays(c: Config, group: set<NodeId>, s: State, r: State, ticket: nat)
    requires Goes(c, group, s, r) && ticket in s.outcomes
    ensures ticket in r.outcomes && r.outcomes[ticket] == s.outcomes[ticket]
  {
    var run :| IsRun(c, run) && run[|run| - 1] == s;
    var longer := WorkIsARun(c, run, group, r);
    AnsweredOnce(c, longer, |run| - 1, |longer| - 1, ticket);
  }

  // ---- a follower ----

  lemma CallSettles(c: Config, id: NodeId, f: NodeState, req: AppendReq)
    requires Genuine(c, req.version, req.clusterId) && req.term >= f.term
    ensures var g := OnAppendCall(c, id, f, req).node;
            g.applied >= f.applied && (g.commit == f.commit || !CanApply(c, g))
  {
    var m := FollowerCommit(AcceptAppend(f, req).0, req);
    Repair.DrainKeeps(c, m);
    DrainStops(c, m);
  }

  lemma Pairs(c: Config, s: State, id: NodeId, m: NodeId)
    requires Reached(c, s) && Shaped(c, s) && id in c.servers && m in Peers(c, id)
    requires s.nodes[id].role == Leader && s.nodes[m].term <= s.nodes[id].term
    ensures Repair.Paired(s.reigns, s.nodes[id], m, s.nodes[m])
  {
    var run :| IsRun(c, run) && run[|run| - 1] == s;
    Repair.ReachablePairs(c, run, |run| - 1, id, m);
  }

  lemma StaysCaught(c: Config, f: NodeState, g: NodeState, log: seq<LogEntry>, k: nat)
    requires k < |log| && (f.commit < k || Caught(c, f, log, k))
    requires AppOk(c, g) && g.applied <= g.commit < |g.log| && g.applied >= f.applied && g.commit >= f.commit
    requires if g.commit == f.commit then g.log == f.log || Has(g.log, log, k)
             else Has(g.log, log, k) && !CanApply(c, g) && g.commit <= k
    ensures g.commit < k || Caught(c, g, log, k)
  {
    if g.commit >= k && f.commit < k && Replay(c, log, k).Some? {
      ReplayPrefix(c, g.log, log, k, k);
      AppliesAll(c, g);
    }
  }

  /** What a leader's request makes of a follower: it takes all, or keeps its log. */
  ghost predicate Heeds(c: Config, n: NodeState, f: NodeState, g: NodeState, success: bool) {
    && g.term == n.term && g.applied >= f.applied && g.commit >= f.commit
    && (g.commit == f.commit || !CanApply(c, g))
    && (if success then Has(g.log, n.log, LastIndex(n.log)) && g.commit == Repair.Larger(f.commit, n.commit)
        else g.log == f.log && g.commit == f.commit)
  }

  /** Every follower of no later term heeds the request. */
  lemma Follows(c: Config, s: State, id: NodeId, m: NodeId)
    requires Reached(c, s) && Shaped(c, s) && id in c.servers && m in Peers(c, id)
    requires s.nodes[id].role == Leader && s.nodes[m].term <= s.nodes[id].term
    ensures var n, f := s.nodes[id], s.nodes[m];
            var (g, resp) := Repair.Reply(c, f, m, AppendReqOf(c, id, n, m));
            Heeds(c, n, f, g, resp.success)
  {
    Facts(c, s, id);
    Pairs(c, s, id, m);
    var n, f := s.nodes[id], s.nodes[m];
    var req := AppendReqOf(c, id, n, m);
    Repair.LearnsExactly(c, m, f, req);
    CallSettles(c, m, f, req);
    if Repair.Reply(c, f, m, req).1.success { Repair.Accepted(c, s.reigns, id, n, m, f); }
  }

  lemma OneMoved(
    c: Config, group: set<NodeId>, s: State, r: State, id: NodeId, m: NodeId, log: seq<LogEntry>, ticket: nat)
    requires Goes(c, group, s, r) && Serves(c, s, group, id, log, ticket) && m in group && m != id && m in r.nodes
    requires r.nodes == s.nodes[m := r.nodes[m]] && r.nodes[m].term <= s.nodes[id].term
    requires InStep(c, r, m, log)
    ensures Serves(c, r, group, id, log, ticket)
  {
    if ticket in s.outcomes { OutcomeStays(c, group, s, r, ticket); }
    assert r.nodes[id] == s.nodes[id];
    forall x | x in group ensures r.nodes[x].term <= r.nodes[id].term {
      assert s.nodes[x].term <= s.nodes[id].term;
    }
    forall x | x in group && x != id ensures InStep(c, r, x, log) { assert InStep(c, s, x, log); }
  }

  lemma Asked(c: Config, group: set<NodeId>, s: State, id: NodeId, m: NodeId) returns (r: State)
    requires Reached(c, s) && Shaped(c, s) && m in group && {id, m} <= c.servers
    requires s.nodes[m].term <= s.nodes[id].term && AppendCall(m, AppendReqOf(c, id, s.nodes[id], m)) in s.net
    ensures Goes(c, group, s, r)
    ensures var (g, resp) := Repair.Reply(c, s.nodes[m], m, AppendReqOf(c, id, s.nodes[id], m));
            && r.nodes == s.nodes[m := g] && AppendReturn(id, m, s.nodes[id].term, resp) in r.net
            && resp.term == s.nodes[id].term
  {
    ReachedInv(c, s);
    var req := AppendReqOf(c, id, s.nodes[id], m);
    r := Handles(c, group, s, AppendAsked(m, req));
    Repair.ReplySent(c, m, s.nodes[m], req);
  }

  lemma StaysInStep(c: Config, s: State, r: State, n: NodeState, m: NodeId, success: bool)
    requires Reached(c, r) && m in c.servers && m in s.nodes && m in r.nodes
    requires Heeds(c, n, s.nodes[m], r.nodes[m], success) && n.commit < |n.log| && InStep(c, s, m, n.log)
    ensures InStep(c, r, m, n.log)
  {
    Facts(c, r, m);
    StaysCaught(c, s.nodes[m], r.nodes[m], n.log, |n.log| - 1);
  }

  /** The leader's request reaches a follower. */
  lemma Delivers(c: Config, group: set<NodeId>, s: State, id: NodeId, m: NodeId, log: seq<LogEntry>, ticket: nat)
    returns (r: State)
    requires Reached(c, s) && Shaped(c, s) && group <= c.servers && Serves(c, s, group, id, log, ticket)
    requires m in group && m != id && AppendCall(m, AppendReqOf(c, id, s.nodes[id], m)) in s.net
    ensures Goes(c, group, s, r) && Serves(c, r, group, id, log, ticket) && r.nodes == s.nodes[m := r.nodes[m]]
    ensures s.nodes[m].term <= s.nodes[id].term
    ensures var (g, resp) := Repair.Reply(c, s.nodes[m], m, AppendReqOf(c, id, s.nodes[id], m));
            && r.nodes[m] == g && AppendReturn(id, m, s.nodes[id].term, resp) in r.net
            && resp.term == s.nodes[id].term
            && (resp.success ==> Has(g.log, log, |log| - 1) && g.commit >= s.nodes[id].commit)
  {
    assert s.nodes[m].term <= s.nodes[id].term;
    assert InStep(c, s, m, log);
    r := Asked(c, group, s, id, m);
    Follows(c, s, id, m);
    StaysInStep(c, s, r, s.nodes[id], m, Repair.Reply(c, s.nodes[m], m, AppendReqOf(c, id, s.nodes[id], m)).1.success);
    OneMoved(c, group, s, r, id, m, log, ticket);
  }

  // ---- the leader ----

  lemma SameMajority(c: Config, n: NodeState, m: NodeState, peers: seq<NodeId>)
    requires 1 <= c.quorum <= |peers| + 1 && m.log == n.log && m.matches == n.matches
    ensures MajorityIndex(c, m, peers) == MajorityIndex(c, n, peers)
  {
    assert MatchesOf(m, peers) == MatchesOf(n, peers);
  }

  lemma AdvanceKeeps(c: Config, id: NodeId, n: NodeState, peers: seq<NodeId>)
    requires 1 <= c.quorum <= |peers| + 1 && n.commit < |n.log|
    ensures var m := Advance(c, id, n, peers).node;
            && m == n.(commit := m.commit, applied := m.applied, app := m.app, waiters := m.waiters)
            && n.commit <= m.commit < |n.log|
  {
    var choice := ChooseCommit(c, n, peers);
    if choice.Some? { Repair.DrainKeeps(c, n.(commit := choice.value)); }
  }

  /** If a majority is known to hold the last entry, it is committed. */
  ghost predicate Settled(c: Config, id: NodeId, n: NodeState) {
    |n.log| >= 1 && (|Holders(c, id, n, |n.log| - 1)| >= c.quorum ==> n.commit >= |n.log| - 1)
  }

  lemma NoChoiceAfter(c: Config, id: NodeId, n: NodeState, peers: seq<NodeId>)
    requires 1 <= c.quorum <= |peers| + 1 && n.commit < |n.log|
    ensures ChooseCommit(c, Advance(c, id, n, peers).node, peers).None?
  {
    var choice := ChooseCommit(c, n, peers);
    if choice.Some? { Repair.DrainKeeps(c, n.(commit := choice.value)); }
    SameMajority(c, n, Advance(c, id, n, peers).node, peers);
  }

  lemma NotCommittableSettles(c: Config, id: NodeId, n: NodeState)
    requires |n.log| >= 1 && LastTerm(n.log) == n.term && !Committable(c, id, n, |n.log| - 1)
    ensures Settled(c, id, n)
  {
  }

  lemma NoChoiceSettles(c: Config, id: NodeId, n: NodeState, peers: seq<NodeId>)
    requires ConfigOk(c) && id in c.servers && Lists(c, id, peers) && 1 <= c.quorum <= |peers| + 1
    requires WellFormed(n.log) && LastTerm(n.log) == n.term && MatchesWithin(c, id, n)
    requires ChooseCommit(c, n, peers).None?
    ensures Settled(c, id, n)
  {
    assert !Committable(c, id, n, |n.log| - 1) by { CommitChoiceIsExact(c, id, n, peers, |n.log| - 1); }
    NotCommittableSettles(c, id, n);
  }

  /** After a success the leader has committed all that it may. */
  lemma AdvanceSettles(c: Config, id: NodeId, n: NodeState, peers: seq<NodeId>)
    requires ConfigOk(c) && id in c.servers && Lists(c, id, peers) && 1 <= c.quorum <= |peers| + 1
    requires WellFormed(n.log) && LastTerm(n.log) == n.term && MatchesWithin(c, id, n) && n.commit < |n.log|
    ensures Settled(c, id, Advance(c, id, n, peers).node)
  {
    AdvanceKeeps(c, id, n, peers);
    NoChoiceSettles(c, id, Advance(c, id, n, peers).node, peers) by { NoChoiceAfter(c, id, n, peers); }
  }

  /** The proposer of the last entry waits on, or is told once that is committed and applied. */
  lemma AdvanceTells(c: Config, id: NodeId, n: NodeState, peers: seq<NodeId>, k: nat)
    requires 1 <= c.quorum <= |peers| + 1 && n.applied <= n.commit < k == |n.log| - 1 && k in n.waiters
    ensures var e := Advance(c, id, n, peers);
            if e.node.commit < k then k in e.node.waiters && e.node.waiters[k] == n.waiters[k]
            else && !CanApply(c, e.node)
                 && (e.node.applied == k ==> n.waiters[k] in e.told && e.told[n.waiters[k]].Done?)
  {
    var choice := ChooseCommit(c, n, peers);
    if choice.Some? {
      var m := n.(commit := choice.value);
      Repair.DrainKeeps(c, m);
      if m.commit < k {
        DrainLeaves(c, m, k);
      } else {
        DrainStops(c, m);
        if Drain(c, m).node.applied == k { DrainTells(c, m); }
      }
    }
  }

  lemma LeaderMoved(
    c: Config, group: set<NodeId>, s: State, r: State, id: NodeId, log: seq<LogEntry>, ticket: nat)
    requires Serves(c, s, group, id, log, ticket) && id in r.nodes && r.nodes == s.nodes[id := r.nodes[id]]
    requires r.nodes[id].role == Leader && r.nodes[id].term == s.nodes[id].term && r.nodes[id].log == log
    requires r.nodes[id].commit < |log| && Told(c, r, r.nodes[id], |log| - 1, ticket)
    ensures Serves(c, r, group, id, log, ticket)
  {
    forall x | x in group ensures r.nodes[x].term <= r.nodes[id].term {
      assert s.nodes[x].term <= s.nodes[id].term;
    }
    forall x | x in group && x != id ensures InStep(c, r, x, log) { assert InStep(c, s, x, log); }
  }

  /** A refusal reaches the leader, which backs up and asks again. */
  lemma BacksUp(c: Config, group: set<NodeId>, s: State, id: NodeId, m: NodeId, resp: AppendResp,
                log: seq<LogEntry>, ticket: nat)
    returns (r: State)
    requires Reached(c, s) && Shaped(c, s) && group <= c.servers && Serves(c, s, group, id, log, ticket)
    requires AppendReturn(id, m, s.nodes[id].term, resp) in s.net && resp.term == s.nodes[id].term && !resp.success
    ensures Goes(c, group, s, r) && Serves(c, r, group, id, log, ticket)
    ensures r.nodes == s.nodes[id := OnAppendResp(s.nodes[id], m, s.nodes[id].term, resp)]
    ensures AppendCall(m, AppendReqOf(c, id, r.nodes[id], m)) in r.net
  {
    ReachedInv(c, s);
    var peers := Listing(Peers(c, id));
    r := Handles(c, group, s, AppendAnswered(id, m, s.nodes[id].term, resp, peers));
    if ticket in s.outcomes { OutcomeStays(c, group, s, r, ticket); }
    LeaderMoved(c, group, s, r, id, log, ticket);
  }

  lemma LeaderFacts(c: Config, s: State, id: NodeId)
    requires Reached(c, s) && id in c.servers && id in s.nodes && s.nodes[id].role == Leader
    ensures WellFormed(s.nodes[id].log) && MatchesWithin(c, id, s.nodes[id])
  {
    ReachedInv(c, s);
    var n := s.nodes[id];
    assert NodeOk(c, s, id);
    forall p | p in Peers(c, id) ensures MatchOf(n, p) < |n.log| {
      assert ProgressOk(s.past, n, p);
      assert NodeOk(c, s, p);
    }
  }

  /** What committing does: nothing is left to commit, and the last entry's proposer is told or waits. */
  ghost predicate Advanced(c: Config, id: NodeId, n: NodeState, e: Effect) {
    && e.node == n.(commit := e.node.commit, applied := e.node.applied, app := e.node.app, waiters := e.node.waiters)
    && n.commit <= e.node.commit < |n.log| && Settled(c, id, e.node)
    && var k := |n.log| - 1;
    if n.commit == k then e == Idle(n)
    else k in n.waiters ==>
      if e.node.commit < k then k in e.node.waiters && e.node.waiters[k] == n.waiters[k]
      else !CanApply(c, e.node) && (e.node.applied == k ==> n.waiters[k] in e.told && e.told[n.waiters[k]].Done?)
  }

  lemma SettlesInRun(c: Config, r: State, id: NodeId, n: NodeState, peers: seq<NodeId>)
    requires Reached(c, r) && ConfigOk(c) && id in c.servers && id in r.nodes && Lists(c, id, peers)
    requires 1 <= c.quorum <= |peers| + 1 && r.nodes[id] == Advance(c, id, n, peers).node
    requires n.role == Leader && n.commit < |n.log| && LastTerm(n.log) == n.term
    ensures Settled(c, id, r.nodes[id])
  {
    AdvanceKeeps(c, id, n, peers);
    LeaderFacts(c, r, id);
    assert MatchesWithin(c, id, n);
    AdvanceSettles(c, id, n, peers);
  }

  lemma AdvanceRests(c: Config, id: NodeId, n: NodeState, peers: seq<NodeId>)
    requires 1 <= c.quorum <= |peers| + 1 && n.commit == |n.log| - 1
    ensures Advance(c, id, n, peers) == Idle(n)
  {
  }

  lemma AdvanceDoes(c: Config, id: NodeId, n: NodeState, peers: seq<NodeId>, e: Effect)
    requires 1 <= c.quorum <= |peers| + 1 && n.applied <= n.commit < |n.log|
    requires e == Advance(c, id, n, peers) && Settled(c, id, e.node)
    ensures Advanced(c, id, n, e)
  {
    AdvanceKeeps(c, id, n, peers);
    var k := |n.log| - 1;
    if n.commit == k {
      AdvanceRests(c, id, n, peers);
    } else if k in n.waiters {
      AdvanceTells(c, id, n, peers, k);
    }
  }

  /** A success reaches the leader, which commits what it may. */
  lemma Replies(c: Config, group: set<NodeId>, s: State, id: NodeId, m: NodeId, resp: AppendResp, peers: seq<NodeId>)
    returns (r: State)
    requires Reached(c, s) && Shaped(c, s) && id in group && id in c.servers && s.nodes[id].role == Leader
    requires AppendReturn(id, m, s.nodes[id].term, resp) in s.net && resp.term == s.nodes[id].term && resp.success
    requires Lists(c, id, peers)
    ensures 1 <= c.quorum <= |peers| + 1 && Goes(c, group, s, r)
    ensures Performed(s, id, Advance(c, id, OnAppendResp(s.nodes[id], m, s.nodes[id].term, resp), peers), r)
  {
    ReachedInv(c, s);
    QuorumFits(c, id, peers);
    r := Handles(c, group, s, AppendAnswered(id, m, s.nodes[id].term, resp, peers));
  }

  lemma RecordKeeps(n: NodeState, m: NodeId, resp: AppendResp)
    requires resp.term == n.term && resp.success
    ensures var a := OnAppendResp(n, m, n.term, resp); a == n.(matches := a.matches, nexts := a.nexts)
  {
  }

  lemma RepliesWell(c: Config, group: set<NodeId>, s: State, id: NodeId, m: NodeId, resp: AppendResp)
    returns (r: State, e: Effect)
    requires Reached(c, s) && Shaped(c, s) && id in group && id in c.servers && s.nodes[id].role == Leader
    requires AppendReturn(id, m, s.nodes[id].term, resp) in s.net && resp.term == s.nodes[id].term && resp.success
    requires LastTerm(s.nodes[id].log) == s.nodes[id].term
    ensures Goes(c, group, s, r) && Performed(s, id, e, r)
    ensures Advanced(c, id, OnAppendResp(s.nodes[id], m, s.nodes[id].term, resp), e)
  {
    var peers := Listing(Peers(c, id));
    r := Replies(c, group, s, id, m, resp, peers);
    var n := OnAppendResp(s.nodes[id], m, s.nodes[id].term, resp);
    e := Advance(c, id, n, peers);
    Facts(c, s, id);
    RecordKeeps(s.nodes[id], m, resp);
    SettlesInRun(c, r, id, n, peers);
    AdvanceDoes(c, id, n, peers, e);
  }

  lemma AdvancedTells(c: Config, s: State, r: State, id: NodeId, n: NodeState, e: Effect, ticket: nat)
    requires Reached(c, r) && id in c.servers && id in r.nodes && Advanced(c, id, n, e)
    requires r.nodes[id] == e.node && r.outcomes == s.outcomes + e.told && Told(c, s, n, |n.log| - 1, ticket)
    ensures Told(c, r, r.nodes[id], |n.log| - 1, ticket)
  {
    Facts(c, r, id);
    if r.nodes[id].commit == |n.log| - 1 && n.commit < |n.log| - 1 && Replay(c, n.log, |n.log| - 1).Some? {
      AppliesAll(c, r.nodes[id]);
    }
  }

  /** The leader after a success: the same office and log, and the last entry's proposer told or waiting. */
  lemma LeaderAdvances(c: Config, group: set<NodeId>, s: State, id: NodeId, m: NodeId, resp: AppendResp, ticket: nat)
    returns (r: State)
    requires Reached(c, s) && Shaped(c, s) && id in group && id in c.servers && s.nodes[id].role == Leader
    requires AppendReturn(id, m, s.nodes[id].term, resp) in s.net && resp.term == s.nodes[id].term && resp.success
    requires var n := s.nodes[id];
             n.commit < |n.log| && LastTerm(n.log) == n.term && Told(c, s, n, |n.log| - 1, ticket)
    ensures Goes(c, group, s, r) && r.nodes == s.nodes[id := r.nodes[id]] && Settled(c, id, r.nodes[id])
    ensures var n, a := s.nodes[id], r.nodes[id];
            && a.role == Leader && a.term == n.term && a.log == n.log && a.commit < |n.log|
            && Told(c, r, a, |n.log| - 1, ticket) && a.matches == OnAppendResp(n, m, n.term, resp).matches
  {
    var e: Effect;
    r, e := RepliesWell(c, group, s, id, m, resp);
    var n := OnAppendResp(s.nodes[id], m, s.nodes[id].term, resp);
    RecordKeeps(s.nodes[id], m, resp);
    AdvancedTells(c, s, r, id, n, e, ticket);
  }

  lemma Advances(c: Config, group: set<NodeId>, s: State, id: NodeId, m: NodeId, resp: AppendResp,
                 log: seq<LogEntry>, ticket: nat)
    returns (r: State)
    requires Reached(c, s) && Shaped(c, s) && group <= c.servers && Serves(c, s, group, id, log, ticket)
    requires AppendReturn(id, m, s.nodes[id].term, resp) in s.net && resp.term == s.nodes[id].term && resp.success
    ensures Goes(c, group, s, r) && Serves(c, r, group, id, log, ticket) && Settled(c, id, r.nodes[id])
    ensures r.nodes == s.nodes[id := r.nodes[id]]
    ensures r.nodes[id].matches == OnAppendResp(s.nodes[id], m, s.nodes[id].term, resp).matches
  {
    r := LeaderAdvances(c, group, s, id, m, resp, ticket);
    LeaderMoved(c, group, s, r, id, log, ticket);
  }

  // ---- one follower after the other ----

  /** The leader's heartbeat: a request to every peer. */
  lemma Beats(c: Config, group: set<NodeId>, s: State, id: NodeId, log: seq<LogEntry>, ticket: nat) returns (r: State)
    requires Reached(c, s) && Shaped(c, s) && group <= c.servers && Serves(c, s, group, id, log, ticket)
    ensures Goes(c, group, s, r) && Serves(c, r, group, id, log, ticket) && r.nodes == s.nodes
    ensures forall m :: m in Peers(c, id) ==> AppendCall(m, AppendReqOf(c, id, s.nodes[id], m)) in r.net
  {
    ReachedInv(c, s);
    r := Handles(c, group, s, Heartbeat(id));
    if ticket in s.outcomes { OutcomeStays(c, group, s, r, ticket); }
    LeaderMoved(c, group, s, r, id, log, ticket);
  }

  /** The follower holds the leader's log, and the leader knows it. */
  ghost predicate Matched(s: State, id: NodeId, m: NodeId, log: seq<LogEntry>) {
    && id in s.nodes && m in s.nodes && |log| >= 1 && Has(s.nodes[m].log, log, |log| - 1)
    && m in s.nodes[id].matches && s.nodes[id].matches[m] == |log| - 1
  }

  /** Only these two members have moved, and of the match indexes only the follower's. */
  ghost predicate Between(s: State, id: NodeId, m: NodeId, r: State) {
    && id in s.nodes && id in r.nodes && m in s.nodes && m in r.nodes
    && r.nodes == s.nodes[m := r.nodes[m]][id := r.nodes[id]]
    && (forall p :: p in s.nodes[id].matches && p != m ==>
          p in r.nodes[id].matches && r.nodes[id].matches[p] == s.nodes[id].matches[p])
  }

  lemma BetweenOn(s: State, id: NodeId, m: NodeId, t: State, r: State)
    requires Between(s, id, m, t) && Between(t, id, m, r) && m != id
    ensures Between(s, id, m, r)
  {
    OverwritesTwo(s.nodes, m, id, t.nodes[m], t.nodes[id], r.nodes[m], r.nodes[id]);
  }

  lemma AcceptedIsKnown(c: Config, s: State, id: NodeId, m: NodeId, resp: AppendResp)
    requires Reached(c, s) && Shaped(c, s) && id in c.servers && m in Peers(c, id)
    requires s.nodes[id].role == Leader && s.nodes[m].term <= s.nodes[id].term
    requires resp == Repair.Reply(c, s.nodes[m], m, AppendReqOf(c, id, s.nodes[id], m)).1 && resp.success
    ensures var n, a := s.nodes[id], OnAppendResp(s.nodes[id], m, s.nodes[id].term, resp).matches;
            && m in a && a[m] == LastIndex(n.log) && resp.term == n.term
            && forall p :: p in n.matches && p != m ==> p in a && a[p] == n.matches[p]
  {
    Pairs(c, s, id, m);
    Repair.Accepted(c, s.reigns, id, s.nodes[id], m, s.nodes[m]);
  }

  /** The follower accepts, and the leader learns it. */
  lemma Accepts(c: Config, group: set<NodeId>, s: State, id: NodeId, m: NodeId, log: seq<LogEntry>, ticket: nat)
    returns (r: State)
    requires Reached(c, s) && Shaped(c, s) && group <= c.servers && Serves(c, s, group, id, log, ticket)
    requires m in group && m != id && AppendCall(m, AppendReqOf(c, id, s.nodes[id], m)) in s.net
    requires s.nodes[m].term <= s.nodes[id].term
    requires Repair.Reply(c, s.nodes[m], m, AppendReqOf(c, id, s.nodes[id], m)).1.success
    ensures Goes(c, group, s, r) && Serves(c, r, group, id, log, ticket) && Settled(c, id, r.nodes[id])
    ensures Matched(r, id, m, log) && Between(s, id, m, r)
  {
    var resp := Repair.Reply(c, s.nodes[m], m, AppendReqOf(c, id, s.nodes[id], m)).1;
    var t := Delivers(c, group, s, id, m, log, ticket);
    AcceptedIsKnown(c, s, id, m, resp);
    r := Advances(c, group, t, id, m, resp, log, ticket);
    GoesOn(c, group, s, t, r);
  }

  /** The follower refuses, and the leader asks again from further back. */
  lemma Retries(c: Config, group: set<NodeId>, s: State, id: NodeId, m: NodeId, log: seq<LogEntry>, ticket: nat)
    returns (r: State)
    requires Reached(c, s) && Shaped(c, s) && group <= c.servers && Serves(c, s, group, id, log, ticket)
    requires m in group && m != id && AppendCall(m, AppendReqOf(c, id, s.nodes[id], m)) in s.net
    requires s.nodes[m].term <= s.nodes[id].term
    requires !Repair.Reply(c, s.nodes[m], m, AppendReqOf(c, id, s.nodes[id], m)).1.success
    ensures Goes(c, group, s, r) && Serves(c, r, group, id, log, ticket) && Between(s, id, m, r)
    ensures AppendCall(m, AppendReqOf(c, id, r.nodes[id], m)) in r.net
    ensures m in s.nodes[id].nexts && m in r.nodes[id].nexts && r.nodes[id].nexts[m] < s.nodes[id].nexts[m]
  {
    var n, f := s.nodes[id], s.nodes[m];
    var resp := Repair.Reply(c, f, m, AppendReqOf(c, id, n, m)).1;
    var t := Delivers(c, group, s, id, m, log, ticket);
    r := BacksUp(c, group, t, id, m, resp, log, ticket);
    GoesOn(c, group, s, t, r);
    Pairs(c, s, id, m);
    Repair.Refused(c, s.reigns, id, n, m, f);
  }

  /** Requests and replies until the follower accepts. */
  lemma {:induction false} BringsUp(
    c: Config, group: set<NodeId>, s: State, id: NodeId, m: NodeId, log: seq<LogEntry>, ticket: nat)
    returns (r: State)
    requires Reached(c, s) && Shaped(c, s) && group <= c.servers && Serves(c, s, group, id, log, ticket)
    requires m in group && m != id && AppendCall(m, AppendReqOf(c, id, s.nodes[id], m)) in s.net
    ensures Goes(c, group, s, r) && Serves(c, r, group, id, log, ticket) && Settled(c, id, r.nodes[id])
    ensures Matched(r, id, m, log) && Between(s, id, m, r)
    decreases if m in s.nodes[id].nexts then s.nodes[id].nexts[m] else 0
  {
    assert s.nodes[m].term <= s.nodes[id].term;
    if Repair.Reply(c, s.nodes[m], m, AppendReqOf(c, id, s.nodes[id], m)).1.success {
      r := Accepts(c, group, s, id, m, log, ticket);
    } else {
      var t := Retries(c, group, s, id, m, log, ticket);
      r := BringsUp(c, group, t, id, m, log, ticket);
      GoesOn(c, group, s, t, r);
      BetweenOn(s, id, m, t, r);
    }
  }

  ghost predicate AllMatched(s: State, id: NodeId, ms: set<NodeId>, log: seq<LogEntry>) {
    forall m {:trigger Matched(s, id, m, log)} :: m in ms ==> Matched(s, id, m, log)
  }

  lemma StayMatched(s: State, id: NodeId, m: NodeId, r: State, ms: set<NodeId>, log: seq<LogEntry>)
    requires AllMatched(s, id, ms, log) && Between(s, id, m, r) && m !in ms && id !in ms
    ensures AllMatched(r, id, ms, log)
  {
    forall x | x in ms ensures Matched(r, id, x, log) { assert Matched(s, id, x, log); }
  }

  lemma BringsOneUp(
    c: Config, group: set<NodeId>, s: State, id: NodeId, done: set<NodeId>, m: NodeId, log: seq<LogEntry>, ticket: nat)
    returns (r: State)
    requires Reached(c, s) && Shaped(c, s) && group <= c.servers && Serves(c, s, group, id, log, ticket)
    requires AllMatched(s, id, done, log) && id !in done && m !in done && m in group && m != id
    ensures Goes(c, group, s, r) && Serves(c, r, group, id, log, ticket) && Settled(c, id, r.nodes[id])
    ensures AllMatched(r, id, done + {m}, log)
  {
    var t := Beats(c, group, s, id, log, ticket);
    r := BringsUp(c, group, t, id, m, log, ticket);
    GoesOn(c, group, s, t, r);
    forall x | x in done ensures Matched(t, id, x, log) { assert Matched(s, id, x, log); }
    StayMatched(t, id, m, r, done, log);
  }

  /** One follower after the other comes to hold the leader's log. */
  lemma {:induction false} BringsAllUp(
    c: Config, group: set<NodeId>, s: State, id: NodeId, done: set<NodeId>, log: seq<LogEntry>, ticket: nat)
    returns (r: State)
    requires Reached(c, s) && Shaped(c, s) && group <= c.servers && Serves(c, s, group, id, log, ticket)
    requires done <= group - {id} && AllMatched(s, id, done, log) && (done != {} ==> Settled(c, id, s.nodes[id]))
    ensures Goes(c, group, s, r) && Serves(c, r, group, id, log, ticket)
    ensures AllMatched(r, id, group - {id}, log) && (group - {id} != {} ==> Settled(c, id, r.nodes[id]))
    decreases group - {id} - done
  {
    var todo := group - {id} - done;
    if todo == {} {
      assert done == group - {id};
      GoesNowhere(c, group, s);
      r := s;
    } else {
      var m :| m in todo;
      var t := BringsOneUp(c, group, s, id, done, m, log, ticket);
      r := BringsAllUp(c, group, t, id, done + {m}, log, ticket);
      GoesOn(c, group, s, t, r);
    }
  }

  /** Then a majority holds the last entry, so it is committed. */
  lemma MatchedCommits(c: Config, s: State, group: set<NodeId>, id: NodeId, log: seq<LogEntry>)
    requires group <= c.servers && |group| >= c.quorum && id in group && id in s.nodes && s.nodes[id].log == log
    requires |log| >= 1 && AllMatched(s, id, group - {id}, log) && Settled(c, id, s.nodes[id])
    ensures s.nodes[id].commit >= |log| - 1
  {
    var holders := Holders(c, id, s.nodes[id], |log| - 1);
    forall m | m in group ensures m in holders {
      if m != id { assert Matched(s, id, m, log); }
    }
    SubsetSize(group, holders);
  }

  lemma SharedFits(c: Config, id: NodeId, n: NodeState, m: NodeId, log: seq<LogEntry>)
    requires m in n.nexts && 1 <= n.nexts[m] <= |n.log| && Has(log, n.log, LastIndex(n.log))
    ensures PrevMatches(log, AppendReqOf(c, id, n, m))
  {
    HasAt(log, n.log, LastIndex(n.log), n.nexts[m] - 1);
  }

  /** A follower that holds the leader's log accepts, and commits what the leader has. */
  lemma MatchedAccepts(c: Config, s: State, id: NodeId, m: NodeId, log: seq<LogEntry>)
    requires Reached(c, s) && Shaped(c, s) && id in c.servers && m in Peers(c, id)
    requires |log| >= 1 && Has(s.nodes[m].log, log, LastIndex(log))
    requires s.nodes[id].role == Leader && s.nodes[id].log == log && s.nodes[m].term <= s.nodes[id].term
    ensures Repair.Reply(c, s.nodes[m], m, AppendReqOf(c, id, s.nodes[id], m)).1.success
  {
    Pairs(c, s, id, m);
    SharedFits(c, id, s.nodes[id], m, s.nodes[m].log);
  }

  ghost predicate HasCaught(c: Config, s: State, m: NodeId, log: seq<LogEntry>) {
    m in s.nodes && |log| >= 1 && Caught(c, s.nodes[m], log, |log| - 1)
  }

  ghost predicate AllCaught(c: Config, s: State, ms: set<NodeId>, log: seq<LogEntry>) {
    forall m {:trigger HasCaught(c, s, m, log)} :: m in ms ==> HasCaught(c, s, m, log)
  }

  /** The follower holds the leader's log, and the leader's request is on its way. */
  ghost predicate Hears(c: Config, s: State, id: NodeId, m: NodeId, log: seq<LogEntry>) {
    && id in s.nodes && m in s.nodes && |log| >= 1 && Has(s.nodes[m].log, log, |log| - 1)
    && AppendCall(m, AppendReqOf(c, id, s.nodes[id], m)) in s.net
  }

  ghost predicate AllHear(c: Config, s: State, id: NodeId, ms: set<NodeId>, log: seq<LogEntry>) {
    forall m {:trigger Hears(c, s, id, m, log)} :: m in ms ==> Hears(c, s, id, m, log)
  }

  lemma OneMoreCaught(
    c: Config, group: set<NodeId>, s: State, t: State, id: NodeId, todo: set<NodeId>, m: NodeId, log: seq<LogEntry>)
    requires m in todo && id !in todo && todo <= group && m in t.nodes && s.net <= t.net
    requires t.nodes == s.nodes[m := t.nodes[m]] && HasCaught(c, t, m, log)
    requires AllHear(c, s, id, todo, log) && AllCaught(c, s, group - {id} - todo, log)
    ensures AllHear(c, t, id, todo - {m}, log) && AllCaught(c, t, group - {id} - (todo - {m}), log)
  {
    forall x | x in todo - {m} ensures Hears(c, t, id, x, log) { assert Hears(c, s, id, x, log); }
    forall x | x in group - {id} - (todo - {m}) ensures HasCaught(c, t, x, log) {
      if x != m { assert HasCaught(c, s, x, log); }
    }
  }

  /** One follower after the other hears that the last entry is committed. */
  lemma {:induction false} TellsAll(
    c: Config, group: set<NodeId>, s: State, id: NodeId, todo: set<NodeId>, log: seq<LogEntry>, ticket: nat)
    returns (r: State)
    requires Reached(c, s) && Shaped(c, s) && group <= c.servers && Serves(c, s, group, id, log, ticket)
    requires s.nodes[id].commit == |log| - 1 && todo <= group - {id}
    requires AllHear(c, s, id, todo, log) && AllCaught(c, s, group - {id} - todo, log)
    ensures Goes(c, group, s, r) && Serves(c, r, group, id, log, ticket) && r.nodes[id] == s.nodes[id]
    ensures AllCaught(c, r, group - {id}, log)
    decreases todo
  {
    if todo == {} {
      GoesNowhere(c, group, s);
      r := s;
      assert group - {id} - todo == group - {id};
    } else {
      var m :| m in todo;
      assert s.nodes[m].term <= s.nodes[id].term && Hears(c, s, id, m, log);
      MatchedAccepts(c, s, id, m, log);
      var t := Delivers(c, group, s, id, m, log, ticket);
      assert InStep(c, t, m, log);
      OneMoreCaught(c, group, s, t, id, todo, m, log);
      r := TellsAll(c, group, t, id, todo - {m}, log, ticket);
      GoesOn(c, group, s, t, r);
    }
  }

  /** The leader of a group that has appended an entry brings all of the group to hold it, */
  lemma Copies(c: Config, group: set<NodeId>, s: State, id: NodeId, log: seq<LogEntry>, ticket: nat) returns (r: State)
    requires Reached(c, s) && Shaped(c, s) && group <= c.servers && |group| >= c.quorum >= 2
    requires Serves(c, s, group, id, log, ticket)
    ensures Goes(c, group, s, r) && Serves(c, r, group, id, log, ticket) && r.nodes[id].commit == |log| - 1
    ensures AllMatched(r, id, group - {id}, log)
  {
    r := BringsAllUp(c, group, s, id, {}, log, ticket);
    assert |group| == |group - {id}| + 1 by { assert group == (group - {id}) + {id}; }
    MatchedCommits(c, r, group, id, log);
  }

  /** and to commit it. */
  lemma Commits(c: Config, group: set<NodeId>, s: State, id: NodeId, log: seq<LogEntry>, ticket: nat) returns (r: State)
    requires Reached(c, s) && Shaped(c, s) && group <= c.servers && |group| >= c.quorum >= 2
    requires Serves(c, s, group, id, log, ticket)
    ensures Goes(c, group, s, r) && Serves(c, r, group, id, log, ticket) && AllCaught(c, r, group - {id}, log)
    ensures r.nodes[id].commit == |log| - 1
  {
    var t := Copies(c, group, s, id, log, ticket);
    var u := Beats(c, group, t, id, log, ticket);
    forall m | m in group - {id} ensures Hears(c, u, id, m, log) { assert Matched(t, id, m, log); }
    r := TellsAll(c, group, u, id, group - {id}, log, ticket);
    GoesOn(c, group, s, t, u);
    GoesOn(c, group, s, u, r);
  }

  // ---- a proposal ----

  lemma CommitsInLog(c: Config, s: State, id: NodeId, m: NodeId)
    requires Reached(c, s) && Shaped(c, s) && id in c.servers && m in c.servers
    requires s.nodes[id].role == Leader && s.nodes[m].term <= s.nodes[id].term
    ensures s.nodes[m].commit < |s.nodes[id].log|
  {
    var run :| IsRun(c, run) && run[|run| - 1] == s;
    LeadersHaveCommitted(c, run, |run| - 1, |run| - 1, m, id);
  }

  /** The leader takes a command: its log is one entry longer, and the proposer waits. */
  lemma Takes(c: Config, group: set<NodeId>, s: State, id: NodeId, command: Command, ticket: nat) returns (r: State)
    requires Reached(c, s) && Shaped(c, s) && id in group && id in c.servers && s.nodes[id].role == Leader
    requires ticket !in s.tickets
    ensures Goes(c, group, s, r) && r.nodes == s.nodes[id := Propose(s.nodes[id], command, ticket)]
  {
    ReachedInv(c, s);
    r := Handles(c, group, s, Proposed(id, command, ticket));
  }

  lemma Proposes(c: Config, group: set<NodeId>, s: State, id: NodeId, command: Command, ticket: nat) returns (r: State)
    requires Reached(c, s) && Shaped(c, s) && group <= c.servers && LeadsGroup(s, group, id) && ticket !in s.tickets
    ensures Goes(c, group, s, r)
    ensures var n := s.nodes[id];
            && Serves(c, r, group, id, n.log + [LogEntry(|n.log|, n.term, Carries(command))], ticket)
            && r.nodes[id].commit < |n.log|
  {
    r := Takes(c, group, s, id, command, ticket);
    Facts(c, s, id);
    forall m | m in group
      ensures s.nodes[m].commit < |s.nodes[id].log| && r.nodes[m].term <= r.nodes[id].term
      ensures m != id ==> InStep(c, r, m, r.nodes[id].log)
    {
      assert s.nodes[m].term <= s.nodes[id].term;
      CommitsInLog(c, s, id, m);
    }
  }

  lemma {:induction false} SomeFresh(ts: set<nat>) returns (t: nat)
    ensures forall x :: x in ts ==> x < t
    decreases ts
  {
    if ts == {} {
      t := 0;
    } else {
      var x :| x in ts;
      var u := SomeFresh(ts - {x});
      t := if u > x then u else x + 1;
      forall y | y in ts ensures y < t { assert y == x || y in ts - {x}; }
    }
  }

  /** The waiting proposer's ticket stays the ticket of the last entry. */
  lemma TicketStays(c: Config, group: set<NodeId>, s: State, r: State, id: NodeId, k: nat)
    requires Goes(c, group, s, r) && id in s.nodes && k in s.nodes[id].waiters
    ensures s.nodes[id].waiters[k] in r.tickets && r.tickets[s.nodes[id].waiters[k]].index == k
  {
    var run :| IsRun(c, run) && run[|run| - 1] == s;
    var longer := WorkIsARun(c, run, group, r);
    RunAnswers(c, longer, |run| - 1);
    assert WaiterOk(s, id, k);
    RunRemembers(c, longer, |run| - 1, |longer| - 1);
  }

  /** A proposer that has been told was told what its entry produced. */
  lemma ToldExactly(c: Config, s: State, id: NodeId, ticket: nat, k: nat)
    requires Reached(c, s) && id in c.servers && id in s.nodes && 1 <= k <= s.nodes[id].commit < |s.nodes[id].log|
    requires ticket in s.tickets && s.tickets[ticket].index == k && ticket in s.outcomes && s.outcomes[ticket].Done?
    ensures ResultAt(c, s.nodes[id].log, k) == Some(s.outcomes[ticket].result)
  {
    var run :| IsRun(c, run) && run[|run| - 1] == s;
    ResultIsOwn(c, run, |run| - 1, |run| - 1, ticket, id);
  }

  /** The command is the last entry of the leader's log; every member of the group has committed
      it, and if the log replays, has applied it, and the proposer is told what it produced. */
  ghost predicate Served(c: Config, s: State, group: set<NodeId>, id: NodeId, command: Command, ticket: nat) {
    && LeadsGroup(s, group, id)
    && var log, k := s.nodes[id].log, LastIndex(s.nodes[id].log);
    && 1 <= k < |log| && log[k] == LogEntry(k, s.nodes[id].term, Carries(command))
    && (forall m {:trigger s.nodes[m]} :: m in group ==> Caught(c, s.nodes[m], log, k))
    && (Replay(c, log, k).Some? ==>
          && ticket in s.outcomes && s.outcomes[ticket].Done?
          && ResultAt(c, log, k) == Some(s.outcomes[ticket].result))
  }

  lemma Done(c: Config, group: set<NodeId>, t: State, r: State, id: NodeId, log: seq<LogEntry>, command: Command,
             ticket: nat)
    requires Goes(c, group, t, r) && id in c.servers && id in t.nodes && |log| >= 2
    requires |log| - 1 in t.nodes[id].waiters && t.nodes[id].waiters[|log| - 1] == ticket
    requires Serves(c, r, group, id, log, ticket) && AllCaught(c, r, group - {id}, log)
    requires r.nodes[id].commit == |log| - 1
    requires log[|log| - 1] == LogEntry(|log| - 1, r.nodes[id].term, Carries(command))
    ensures Served(c, r, group, id, command, ticket)
  {
    forall m | m in group ensures Caught(c, r.nodes[m], log, |log| - 1) {
      if m != id { assert HasCaught(c, r, m, log); }
    }
    if Replay(c, log, |log| - 1).Some? {
      TicketStays(c, group, t, r, id, |log| - 1);
      ToldExactly(c, r, id, ticket, |log| - 1);
    }
  }

  lemma LeaderServes(c: Config, group: set<NodeId>, s: State, id: NodeId, command: Command, ticket: nat)
    returns (r: State)
    requires Reached(c, s) && Shaped(c, s) && group <= c.servers && |group| >= c.quorum >= 2
    requires LeadsGroup(s, group, id) && ticket !in s.tickets
    ensures Goes(c, group, s, r) && Served(c, r, group, id, command, ticket)
  {
    var n := s.nodes[id];
    var log := n.log + [LogEntry(|n.log|, n.term, Carries(command))];
    var t := Proposes(c, group, s, id, command, ticket);
    r := Commits(c, group, t, id, log, ticket);
    GoesOn(c, group, s, t, r);
    Done(c, group, t, r, id, log, command, ticket);
  }

  /** From the end of every run, every majority of two or more can go on by itself until one of
      its members leads it and any given command has been served, under a new ticket. */
  lemma MajorityServes(c: Config, run: seq<State>, group: set<NodeId>, command: Command)
    returns (longer: seq<State>, id: NodeId, ticket: nat)
    requires IsRun(c, run) && group <= c.servers && |group| >= c.quorum >= 2
    ensures IsRun(c, longer) && run <= longer && Works(c, group, run[|run| - 1], longer[|longer| - 1])
    ensures Served(c, longer[|longer| - 1], group, id, command, ticket)
  {
    var s := run[|run| - 1];
    assert Reached(c, s);
    ReachedInv(c, s);
    var t: State;
    t, id := GroupElects(c, group, s);
    ticket := SomeFresh(t.tickets.Keys);
    var r := LeaderServes(c, group, t, id, command, ticket);
    GoesOn(c, group, s, t, r);
    longer := WorkIsARun(c, run, group, r);
  }
}
