/**
  Log repair.  When a leader and a follower exchange requests and replies in order,
  every log-mismatch reply strictly lowers the follower's nextIndex, through the
  conflict-term shortcut too, so an exchange ends with the follower holding the
  leader's whole log.  In any order, with losses and repeats, what the leader takes
  to be matched is held.
 */
module LogRepair {
  import opened Models
  import opened RaftNode
  import opened Cluster
  import opened ClusterInvariant
  import opened ClusterSafety
  import opened Handlers

  /** A leader and a peer that does not know of a later term, with logs of one history R. */
  ghost predicate Paired(R: Reigns, n: NodeState, peer: NodeId, f: NodeState) {
    && n.role == Leader && LogOk(R, n.log, n.term)
    && peer in n.nexts && 1 <= n.nexts[peer] <= |n.log|
    && peer in n.matches && n.matches[peer] < |n.log|
    && f.term <= n.term && LogOk(R, f.log, f.term)
  }

  /** The shortcut: if a follower's entry has a term that the leader's entry there has
      not, the leader's last entry of that term, if any, lies below. */
  lemma TermEndsBelow(R: Reigns, ref: seq<LogEntry>, log: seq<LogEntry>, prev: nat, last: nat)
    requires WellFormed(ref) && WellFormed(log) && Grounded(R, ref) && Grounded(R, log)
    requires 1 <= prev < |ref| && prev < |log| && ref[prev].term != log[prev].term
    requires last < |ref| && ref[last].term == log[prev].term
    ensures last < prev
  {
    assert EntryGrounded(R, log, prev);
    assert EntryOk(log, prev);
    if last >= prev {
      assert EntryGrounded(R, ref, last);
      HasAt(ref, R[log[prev].term].log, last, prev);
      HasAt(log, R[log[prev].term].log, prev, prev);
      assert false;
    }
  }

  lemma HintLowers(R: Reigns, ref: seq<LogEntry>, f: NodeState, req: AppendReq)
    requires WellFormed(ref) && WellFormed(f.log) && Grounded(R, ref) && Grounded(R, f.log)
    requires req.prevIndex < |ref| && req.prevTerm == ref[req.prevIndex].term && !PrevMatches(f.log, req)
    ensures 1 <= NextAfter(ref, Conflict(f, req)) <= req.prevIndex
  {
    var prev := req.prevIndex;
    if prev < |f.log| {
      assert EntryOk(f.log, prev);
      var last := LastWithTerm(ref, LastIndex(ref), f.log[prev].term);
      if last > 0 { TermEndsBelow(R, ref, f.log, prev, last); }
    }
  }

  /** If the leader has entries of the follower's conflicting term, both logs agree up to the last of them. */
  lemma SameTermShared(R: Reigns, ref: seq<LogEntry>, log: seq<LogEntry>, prev: nat, last: nat)
    requires WellFormed(ref) && WellFormed(log) && Grounded(R, ref) && Grounded(R, log)
    requires 1 <= last < prev < |log| && last < |ref| && ref[last].term == log[prev].term
    ensures log[last].term == log[prev].term
  {
    assert EntryGrounded(R, log, prev) && EntryGrounded(R, ref, last);
    assert EntryOk(log, prev);
    HasAt(log, R[log[prev].term].log, prev, last);
    HasAt(ref, R[log[prev].term].log, last, last);
  }

  /** The hint is tight: no entry from where the leader resumes up to where it was refused is
      one that the follower shares. */
  lemma HintIsTight(R: Reigns, ref: seq<LogEntry>, f: NodeState, req: AppendReq, i: nat)
    requires WellFormed(ref) && WellFormed(f.log) && Grounded(R, ref) && Grounded(R, f.log)
    requires req.prevIndex < |ref| && req.prevTerm == ref[req.prevIndex].term && !PrevMatches(f.log, req)
    requires NextAfter(ref, Conflict(f, req)) <= i <= req.prevIndex
    ensures i >= |f.log| || f.log[i].term != ref[i].term
  {
    var prev := req.prevIndex;
    HintLowers(R, ref, f, req);
    if prev < |f.log| {
      assert EntryOk(f.log, prev);
      var last := LastWithTerm(ref, LastIndex(ref), f.log[prev].term);
      if last > 0 {
        SameTermShared(R, ref, f.log, prev, last);
        assert TermsRise(f.log, last, i) && TermsRise(f.log, i, prev);
      }
    }
  }

  /** A reply never lowers a match index, and a success raises it to the index it reports. */
  lemma MatchNeverFalls(n: NodeState, peer: NodeId, sent: nat, resp: AppendResp, p: NodeId)
    requires p in n.matches
    ensures var m := OnAppendResp(n, peer, sent, resp);
            && p in m.matches && m.matches[p] >= n.matches[p]
            && (n.role == Leader && sent == n.term && resp.term <= n.term && resp.success && p == peer ==>
                  m.matches[p] == Larger(n.matches[p], resp.matchIndex))
  {
  }

  /** Applying changes only what is applied and who still waits. */
  lemma DrainKeeps(c: Config, n: NodeState)
    ensures var d := Drain(c, n).node;
            d == n.(applied := d.applied, app := d.app, waiters := d.waiters) && d.applied >= n.applied
    decreases n.commit - n.applied
  {
  }

  function Smaller(a: nat, b: nat): nat { if a < b then a else b }
  function Larger(a: nat, b: nat): nat { if a > b then a else b }

  lemma LearnKeeps(c: Config, n: NodeState, req: AppendReq)
    ensures var g := Learn(c, n, req).node;
            && g.term == n.term && g.role == n.role && g.leader == n.leader && g.log == n.log
            && g.commit == Larger(n.commit, Smaller(req.leaderCommit, req.prevIndex + |req.entries|))
            && g.applied >= n.applied
  {
    DrainKeeps(c, FollowerCommit(n, req));
  }

  /** A follower that hears from the leader of its term or of a later one adopts that term; its
      commit index becomes the larger of its own and as much of the leader's as the request
      covers, if the request fits its log, and stays if it does not. */
  lemma LearnsExactly(c: Config, id: NodeId, f: NodeState, req: AppendReq)
    requires Genuine(c, req.version, req.clusterId) && req.term >= f.term
    ensures var g := OnAppendCall(c, id, f, req).node;
            && g.term == req.term && g.role == Follower && g.leader == req.leader
            && (if PrevMatches(f.log, req)
                then && g.log == Reconcile(f.log, req.prevIndex, req.entries)
                     && g.commit == Larger(f.commit, Smaller(req.leaderCommit, req.prevIndex + |req.entries|))
                else g.log == f.log && g.commit == f.commit)
  {
    LearnKeeps(c, AcceptAppend(f, req).0, req);
  }

  /** The follower after a request, and its reply. */
  function Reply(c: Config, f: NodeState, peer: NodeId, req: AppendReq): (NodeState, AppendResp)
    requires req.term >= f.term
  {
    (OnAppendCall(c, peer, f, req).node, AcceptAppend(f, req).1)
  }

  /** A refusal lowers nextIndex, and keeps it at 1 or more. */
  lemma Refused(c: Config, R: Reigns, id: NodeId, n: NodeState, peer: NodeId, f: NodeState)
    requires Paired(R, n, peer, f) && !Reply(c, f, peer, AppendReqOf(c, id, n, peer)).1.success
    ensures var (g, resp) := Reply(c, f, peer, AppendReqOf(c, id, n, peer));
            var m := OnAppendResp(n, peer, n.term, resp);
            && m.log == n.log && m.term == n.term && m.commit == n.commit && g.log == f.log
            && Paired(R, m, peer, g) && m.nexts[peer] < n.nexts[peer]
  {
    var req := AppendReqOf(c, id, n, peer);
    HintLowers(R, n.log, StepDown(f, req.term, req.leader), req);
  }

  lemma AcceptedCopies(R: Reigns, ref: seq<LogEntry>, log: seq<LogEntry>, req: AppendReq)
    requires WellFormed(ref) && WellFormed(log) && Grounded(R, ref) && Grounded(R, log)
    requires req.prevIndex < |ref| && req.prevTerm == ref[req.prevIndex].term && PrevMatches(log, req)
    requires req.entries == ref[req.prevIndex + 1..]
    ensures Has(Reconcile(log, req.prevIndex, req.entries), ref, LastIndex(ref))
  {
    ReconcileFacts(R, log, ref, req.prevIndex, req.entries);
  }

  lemma AcceptedMatch(c: Config, R: Reigns, id: NodeId, n: NodeState, peer: NodeId, f: NodeState)
    requires Paired(R, n, peer, f) && Reply(c, f, peer, AppendReqOf(c, id, n, peer)).1.success
    ensures PrevMatches(f.log, AppendReqOf(c, id, n, peer))
    ensures var resp := Reply(c, f, peer, AppendReqOf(c, id, n, peer)).1;
            var m := OnAppendResp(n, peer, n.term, resp);
            && m.role == Leader && m.term == n.term && m.log == n.log
            && peer in m.matches && m.matches[peer] == LastIndex(n.log) == resp.matchIndex
  {
  }

  /** A success leaves the follower with the leader's log and commit index, and the leader knowing it. */
  lemma Accepted(c: Config, R: Reigns, id: NodeId, n: NodeState, peer: NodeId, f: NodeState)
    requires Paired(R, n, peer, f) && Reply(c, f, peer, AppendReqOf(c, id, n, peer)).1.success
    ensures var (g, resp) := Reply(c, f, peer, AppendReqOf(c, id, n, peer));
            var m := OnAppendResp(n, peer, n.term, resp);
            && m.role == Leader && m.term == n.term && m.log == n.log && Has(g.log, n.log, LastIndex(n.log))
            && peer in m.matches && m.matches[peer] == LastIndex(n.log) == resp.matchIndex
            && (n.commit < |n.log| ==> g.commit == Larger(f.commit, n.commit))
  {
    AcceptedMatch(c, R, id, n, peer, f);
    LearnsExactly(c, peer, f, AppendReqOf(c, id, n, peer));
    AcceptedCopies(R, n.log, f.log, AppendReqOf(c, id, n, peer));
  }

  /** Requests and replies in order until the follower accepts: the leader, then the follower. */
  ghost function Repair(
    c: Config, R: Reigns, id: NodeId, n: NodeState, peer: NodeId, f: NodeState): (NodeState, NodeState)
    requires Paired(R, n, peer, f)
    decreases n.nexts[peer]
  {
    var (g, resp) := Reply(c, f, peer, AppendReqOf(c, id, n, peer));
    var m := OnAppendResp(n, peer, n.term, resp);
    if resp.success then (m, g)
    else
      Refused(c, R, id, n, peer, f);
      Repair(c, R, id, m, peer, g)
  }

  /** Repair ends with the follower holding the leader's log through the match index,
      which is the leader's last, and having committed what the leader has. */
  lemma {:induction false} RepairConverges(c: Config, R: Reigns, id: NodeId, n: NodeState, peer: NodeId, f: NodeState)
    requires Paired(R, n, peer, f)
    ensures var (m, g) := Repair(c, R, id, n, peer, f);
            && m.role == Leader && m.term == n.term && m.log == n.log
            && peer in m.matches && m.matches[peer] == LastIndex(n.log) && Has(g.log, n.log, LastIndex(n.log))
            && (n.commit < |n.log| ==> g.commit >= n.commit)
    decreases n.nexts[peer]
  {
    var (g, resp) := Reply(c, f, peer, AppendReqOf(c, id, n, peer));
    if resp.success {
      Accepted(c, R, id, n, peer, f);
    } else {
      Refused(c, R, id, n, peer, f);
      RepairConverges(c, R, id, OnAppendResp(n, peer, n.term, resp), peer, g);
    }
  }

  // ---- in every run ----

  /** In every reachable state nextIndex lies between 1 and last index + 1. */
  lemma NextIndexInRange(c: Config, run: seq<State>, i: nat, id: NodeId, peer: NodeId)
    requires IsRun(c, run) && i < |run| && id in c.servers && peer in Peers(c, id) && id in run[i].nodes
    requires run[i].nodes[id].role == Leader
    ensures var n := run[i].nodes[id]; peer in n.nexts && 1 <= n.nexts[peer] <= LastIndex(n.log) + 1
  {
    RunInv(c, run, i);
    assert NodeOk(c, run[i], id);
    assert ProgressOk(run[i].past, run[i].nodes[id], peer);
  }

  lemma ReachablePairs(c: Config, run: seq<State>, i: nat, id: NodeId, peer: NodeId)
    requires IsRun(c, run) && i < |run| && id in c.servers && peer in Peers(c, id)
    ensures id in run[i].nodes && peer in run[i].nodes
    ensures var n, f := run[i].nodes[id], run[i].nodes[peer];
            n.role == Leader && f.term <= n.term ==> Paired(run[i].reigns, n, peer, f)
  {
    var s := run[i];
    RunInv(c, run, i);
    assert NodeOk(c, s, id) && NodeOk(c, s, peer);
    var n := s.nodes[id];
    if n.role == Leader {
      assert ProgressOk(s.past, n, peer);
      assert AcksOk(s.reigns, s.past[peer], peer, s.nodes[peer].log, s.nodes[peer].term);
    }
  }

  /** From every reachable state, a leader that exchanges messages with a peer of no
      later term brings it to its own log. */
  lemma RepairTerminates(c: Config, run: seq<State>, i: nat, id: NodeId, peer: NodeId)
    requires IsRun(c, run) && i < |run| && id in c.servers && peer in Peers(c, id)
    requires id in run[i].nodes && peer in run[i].nodes
    requires run[i].nodes[id].role == Leader && run[i].nodes[peer].term <= run[i].nodes[id].term
    ensures var n, f := run[i].nodes[id], run[i].nodes[peer];
            && Paired(run[i].reigns, n, peer, f)
            && var (m, g) := Repair(c, run[i].reigns, id, n, peer, f);
            && peer in m.matches && m.matches[peer] == LastIndex(n.log) && Has(g.log, n.log, LastIndex(n.log))
  {
    ReachablePairs(c, run, i, id, peer);
    RepairConverges(c, run[i].reigns, id, run[i].nodes[id], peer, run[i].nodes[peer]);
  }

  // ---- repair as steps of the cluster ----

  /** The leader sends, the peer handles the request, and the leader records the reply. */
  lemma ExchangeIsSteps(c: Config, s: State, id: NodeId, peer: NodeId) returns (r: State)
    requires Shaped(c, s) && id in c.servers && peer in Peers(c, id)
    requires s.nodes[id].role == Leader && s.nodes[peer].term <= s.nodes[id].term
    ensures var n, f := s.nodes[id], s.nodes[peer];
            var (g, resp) := Reply(c, f, peer, AppendReqOf(c, id, n, peer));
            && Shaped(c, r) && Leads(c, s, r)
            && r.nodes == s.nodes[peer := g][id := OnAppendResp(n, peer, n.term, resp)]
  {
    var n, f := s.nodes[id], s.nodes[peer];
    var req := AppendReqOf(c, id, n, peer);
    var t := SendsAreSteps(c, s, id, {peer});
    assert CallsTo(c, id, n, {peer}) == {AppendCall(peer, req)};
    var u := AppendCallIsSteps(c, t, peer, req);
    ReplySent(c, peer, f, req);
    r := RecordIsStep(c, u, id, peer, n.term, AcceptAppend(f, req).1);
    LeadsOn(c, s, t, u);
    LeadsOn(c, s, u, r);
  }

  lemma ReplySent(c: Config, peer: NodeId, f: NodeState, req: AppendReq)
    requires Genuine(c, req.version, req.clusterId) && req.term >= f.term
    ensures var resp := AcceptAppend(f, req).1;
            && AppendReturn(req.leader, peer, req.term, resp) in OnAppendCall(c, peer, f, req).sent
            && resp.term == req.term
  {
  }

  lemma {:induction false} RepairIsSteps(c: Config, R: Reigns, s: State, id: NodeId, peer: NodeId) returns (r: State)
    requires Shaped(c, s) && id in c.servers && peer in Peers(c, id)
    requires Paired(R, s.nodes[id], peer, s.nodes[peer])
    ensures var (m, g) := Repair(c, R, id, s.nodes[id], peer, s.nodes[peer]);
            Shaped(c, r) && Leads(c, s, r) && r.nodes == s.nodes[peer := g][id := m]
    decreases s.nodes[id].nexts[peer]
  {
    var n, f := s.nodes[id], s.nodes[peer];
    var t := ExchangeIsSteps(c, s, id, peer);
    if Reply(c, f, peer, AppendReqOf(c, id, n, peer)).1.success {
      r := t;
    } else {
      Refused(c, R, id, n, peer, f);
      r := RepairIsSteps(c, R, t, id, peer);
      LeadsOn(c, s, t, r);
      OverwritesTwo(s.nodes, peer, id, t.nodes[peer], t.nodes[id], r.nodes[peer], r.nodes[id]);
    }
  }

  /** From every reachable state, repair is the end of a longer run: one where the peer holds
      the leader's log and has committed what the leader has, the leader still leads and
      knows it, and no other member has moved. */
  lemma RepairInRun(c: Config, run: seq<State>, id: NodeId, peer: NodeId) returns (longer: seq<State>)
    requires IsRun(c, run) && id in c.servers && peer in Peers(c, id)
    requires id in run[|run| - 1].nodes && peer in run[|run| - 1].nodes
    requires run[|run| - 1].nodes[id].role == Leader
    requires run[|run| - 1].nodes[peer].term <= run[|run| - 1].nodes[id].term
    ensures IsRun(c, longer) && run <= longer
    ensures var n, s, r := run[|run| - 1].nodes[id], run[|run| - 1].nodes, longer[|longer| - 1].nodes;
            && id in r && peer in r && r == s[peer := r[peer]][id := r[id]]
            && r[id].role == Leader && r[id].term == n.term && r[id].log == n.log
            && peer in r[id].matches && r[id].matches[peer] == LastIndex(n.log)
            && Has(r[peer].log, n.log, LastIndex(n.log)) && r[peer].commit >= n.commit
  {
    var s := run[|run| - 1];
    RunInv(c, run, |run| - 1);
    ReachablePairs(c, run, |run| - 1, id, peer);
    assert NodeOk(c, s, id);
    RepairConverges(c, s.reigns, id, s.nodes[id], peer, s.nodes[peer]);
    var r := RepairIsSteps(c, s.reigns, s, id, peer);
    longer := LeadsStaysReachable(c, run, r);
  }

  // ---- with late and repeated replies too ----

  /** In every reachable state, a peer of no later term holds the leader's log through
      the match index, whatever replies were lost, late or repeated. */
  lemma MatchIsHeld(c: Config, run: seq<State>, i: nat, id: NodeId, peer: NodeId)
    requires IsRun(c, run) && i < |run| && id in c.servers && peer in Peers(c, id)
    requires id in run[i].nodes && peer in run[i].nodes
    requires run[i].nodes[id].role == Leader && run[i].nodes[peer].term <= run[i].nodes[id].term
    ensures var n, f := run[i].nodes[id], run[i].nodes[peer];
            peer in n.matches && Has(f.log, n.log, n.matches[peer])
  {
    var s, n, f := run[i], run[i].nodes[id], run[i].nodes[peer];
    RunInv(c, run, i);
    assert NodeOk(c, s, id) && NodeOk(c, s, peer);
    assert ProgressOk(s.past, n, peer);
    if n.matches[peer] == 0 {
      assert f.log[..1] == [SENTINEL] == n.log[..1];
    } else {
      AckKept(s.reigns, s.past[peer], peer, f.log, f.term, n.term, n.matches[peer]);
    }
  }
}
