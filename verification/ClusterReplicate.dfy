/**
  The replication steps keep the invariant: repairing a follower's log, learning
  and advancing the commit index, tracking progress, sending and proposing.
 */
module ClusterReplicate {
  import opened Models
  import opened RaftNode
  import opened Cluster
  import opened ClusterInvariant
  import opened ClusterSteps
  import opened ClusterPreserve

  // ---- a follower answers AppendEntries ----

  /** What an append request of the follower's own term says about its log. */
  ghost predicate Follows(c: Config, s: State, id: NodeId, req: AppendReq) {
    && Shaped(c, s) && id in c.servers
    && AppendCallOk(s.reigns, s.commits, req) && req.term == s.nodes[id].term
    && LogOk(s.reigns, s.reigns[req.term].log, req.term)
    && PrevMatches(s.nodes[id].log, req)
  }

  lemma MergeFacts(c: Config, s: State, id: NodeId, req: AppendReq)
    requires Follows(c, s, id, req) && LogOk(s.reigns, s.nodes[id].log, s.nodes[id].term)
    ensures var log, ref := s.nodes[id].log, s.reigns[req.term].log;
            var merged, end := Reconcile(log, req.prevIndex, req.entries), req.prevIndex + |req.entries|;
            && Has(merged, ref, end)
            && (merged == log || merged == ref[..end + 1])
            && (Has(log, ref, end) ==> merged == log)
  {
    ReconcileFacts(s.reigns, s.nodes[id].log, s.reigns[req.term].log, req.prevIndex, req.entries);
  }

  /** What both logs share lies below their first disagreement. */
  lemma SharedBelow(log: seq<LogEntry>, ref: seq<LogEntry>, other: seq<LogEntry>, j: nat, end: nat)
    requires Has(log, other, j) && Has(ref, other, j) && end < |ref| && !Has(log, ref, end)
    ensures Has(ref[..end + 1], other, j)
  {
    HasTrans(log, other, ref, j, j, j) by { assert Has(other, ref, j); }
    if j >= end { HasAt(log, ref, j, end); }
    assert ref[..end + 1][..j + 1] == ref[..j + 1];
  }

  /** The merged log still keeps every acknowledged prefix, or a later leader lacks it. */
  lemma MergeKeeps(R: Reigns, log: seq<LogEntry>, merged: seq<LogEntry>, term: nat, end: nat, t: nat, j: nat)
    requires term in R && R[term].base <= R[term].log && end < |R[term].log|
    requires merged == log || (merged == R[term].log[..end + 1] && !Has(log, R[term].log, end))
    requires t in R && 1 <= t <= term && j < |R[t].log| && Kept(R, log, t, j, term + 1)
    ensures Kept(R, merged, t, j, term + 1)
  {
    var ref := R[term].log;
    if merged != log && Has(log, R[t].log, j) {
      if Has(ref, R[t].log, j) {
        SharedBelow(log, ref, R[t].log, j, end);
      } else if Has(R[term].base, R[t].log, j) {
        HasPrefix(R[t].log, R[term].base, ref, j);
      } else {
        assert t < term;  // this term's leader started without the prefix
      }
    }
  }

  lemma MergeAcks(
    R: Reigns, p: Past, q: Past, id: NodeId, log: seq<LogEntry>, merged: seq<LogEntry>, term: nat, end: nat)
    requires AcksOk(R, p, id, log, term) && 1 <= term && term in R && R[term].base <= R[term].log && end < |R[term].log|
    requires merged == log || (merged == R[term].log[..end + 1] && !Has(log, R[term].log, end))
    requires Has(merged, R[term].log, end)
    requires q.ballots == p.ballots && forall v :: v in q.ballots ==> v <= term
    requires q.acks == p.acks || q.acks == p.acks[term := end]
    ensures AcksOk(R, q, id, merged, term)
  {
    var hi := term + 1;
    forall t, j | t in q.acks && 1 <= j <= q.acks[t] ensures Kept(R, merged, t, j, hi) {
      if t in p.acks && j <= p.acks[t] {
        assert Kept(R, log, t, j, hi);
        MergeKeeps(R, log, merged, term, end, t, j);
      } else {
        HasAt(merged, R[term].log, end, j);
      }
    }
    forall v, t, j | v in q.ballots && t in q.acks && t < v && 1 <= j <= q.acks[t] && Relevant(R, id, v)
      ensures Kept(R, q.ballots[v].log, t, j, v)
    {
      assert Kept(R, p.ballots[v].log, t, j, v);
    }
  }

  lemma PrefixLogOk(R: Reigns, log: seq<LogEntry>, end: nat, term: nat)
    requires LogOk(R, log, term) && end < |log|
    ensures LogOk(R, log[..end + 1], term)
  {
    var cut := log[..end + 1];
    forall i | 0 <= i < |cut| ensures EntryOk(cut, i) { assert EntryOk(log, i); }
    forall i, j | 0 <= i <= j < |cut| ensures TermsRise(cut, i, j) { assert TermsRise(log, i, j); }
    forall i | 1 <= i < |cut| ensures EntryGrounded(R, cut, i) {
      assert EntryGrounded(R, log, i);
      assert cut[..i + 1] == log[..i + 1];
    }
    assert TermsRise(log, end, LastIndex(log));
  }

  /** Merging keeps whatever the follower already shares with the leader. */
  lemma MergeHolds(c: Config, s: State, id: NodeId, req: AppendReq, k: nat)
    requires Follows(c, s, id, req) && LogOk(s.reigns, s.nodes[id].log, s.nodes[id].term)
    requires Has(s.nodes[id].log, s.reigns[req.term].log, k)
    ensures Has(Reconcile(s.nodes[id].log, req.prevIndex, req.entries), s.nodes[id].log, k)
  {
    var n, ref, end := s.nodes[id], s.reigns[req.term].log, req.prevIndex + |req.entries|;
    var merged := Reconcile(n.log, req.prevIndex, req.entries);
    MergeFacts(c, s, id, req);
    if merged != n.log {
      SharedBelow(n.log, ref, ref, k, end);
      HasTrans(merged, ref, n.log, k, k, k) by { assert Has(ref, n.log, k); }
    }
  }

  /** Repairing the log never touches what the follower has committed. */
  lemma MergeKeepsCommitted(c: Config, s: State, id: NodeId, req: AppendReq)
    requires ConfigOk(c) && Inv(c, s) && Follows(c, s, id, req)
    ensures var n := s.nodes[id]; var merged := Reconcile(n.log, req.prevIndex, req.entries);
            n.commit < |n.log| && Has(merged, n.log, n.commit)
  {
    var n := s.nodes[id];
    assert NodeOk(c, s, id);
    JustifiedReaches(c, s, n.log, n.commit, n.term, req.term);
    MergeHolds(c, s, id, req, n.commit);
  }

  lemma JustifiedSame(R: Reigns, C: Commits, log: seq<LogEntry>, other: seq<LogEntry>, index: nat, term: nat)
    requires Justified(R, C, log, index, term) && Has(other, log, index)
    ensures Justified(R, C, other, index, term)
  {
    if index != 0 {
      var t :| t in C && t in R && t <= term && index <= C[t].index && Has(log, R[t].log, index);
      HasTrans(other, log, R[t].log, index, index, index);
    }
  }

  /** The follower after a successful append. */
  ghost predicate Repaired(c: Config, s: State, s': State, id: NodeId, req: AppendReq, q: Past) {
    && Shaped(c, s) && Shaped(c, s') && id in c.servers && PrevMatches(s.nodes[id].log, req)
    && var n, end := s.nodes[id], req.prevIndex + |req.entries|;
    && s'.nodes[id] == StepDown(n, n.term, req.leader).(log := Reconcile(n.log, req.prevIndex, req.entries))
    && s'.past == s.past[id := q] && PastGrows(s.past[id], q)
    && (q == s.past[id] || q == s.past[id].(acks := s.past[id].acks[n.term := end]))
    && s'.reigns == s.reigns && s'.commits == s.commits
  }

  /** The merged log is sound, keeps what was acknowledged and stays justified. */
  lemma MergedLog(c: Config, s: State, id: NodeId, req: AppendReq, q: Past)
    requires Follows(c, s, id, req) && NodeOk(c, s, id)
    requires s.reigns[req.term].base <= s.reigns[req.term].log && 1 <= req.term
    requires Has(Reconcile(s.nodes[id].log, req.prevIndex, req.entries), s.nodes[id].log, s.nodes[id].commit)
    requires q == s.past[id] || q == s.past[id].(acks := s.past[id].acks[req.term := req.prevIndex + |req.entries|])
    ensures var n := s.nodes[id]; var merged := Reconcile(n.log, req.prevIndex, req.entries);
            && LogOk(s.reigns, merged, n.term)
            && AcksOk(s.reigns, q, id, merged, n.term)
            && Justified(s.reigns, s.commits, merged, n.commit, n.term)
  {
    var n, R, end := s.nodes[id], s.reigns, req.prevIndex + |req.entries|;
    var merged := Reconcile(n.log, req.prevIndex, req.entries);
    MergeFacts(c, s, id, req);
    if merged != n.log { PrefixLogOk(R, R[req.term].log, end, n.term); }
    forall v | v in q.ballots ensures v <= n.term { VotesAreOld(c, s.past, R, id, n.term, n.vote, v); }
    MergeAcks(R, s.past[id], q, id, n.log, merged, n.term, end);
    JustifiedSame(R, s.commits, n.log, merged, n.commit, n.term);
  }

  lemma RepairedNode(c: Config, s: State, s': State, id: NodeId, req: AppendReq, q: Past)
    requires Repaired(c, s, s', id, req, q) && req.term == s.nodes[id].term
    requires NodeOk(c, s, id)
    requires var n := s.nodes[id]; var merged := Reconcile(n.log, req.prevIndex, req.entries);
             && LogOk(s.reigns, merged, n.term)
             && AcksOk(s.reigns, q, id, merged, n.term)
             && Justified(s.reigns, s.commits, merged, n.commit, n.term)
             && n.commit < |merged|
    ensures NodeOk(c, s', id)
  {
    var n, R := s.nodes[id], s.reigns;
    VotesOkGrows(c, s.past, s'.past, R, R, id, id, n.term, n.vote);
  }

  lemma FollowsFrom(c: Config, s: State, id: NodeId, req: AppendReq)
    requires Inv(c, s) && id in c.servers && AppendCall(id, req) in s.net
    requires req.term == s.nodes[id].term && PrevMatches(s.nodes[id].log, req)
    ensures Follows(c, s, id, req) && s.reigns[req.term].base <= s.reigns[req.term].log && 1 <= req.term
    ensures id in Peers(c, req.leader) && s.reigns[req.term].leader == req.leader
  {
    assert MessageOk(c, s, AppendCall(id, req));
    ReignFacts(c, s, req.term);
    assert ReignOk(c, s.past, s.reigns, req.term);
  }

  lemma KeepRepair(c: Config, s: State, s': State, id: NodeId, req: AppendReq, m: NodeState, q: Past)
    requires ConfigOk(c) && Inv(c, s) && id in c.servers && AppendCall(id, req) in s.net
    requires req.term == s.nodes[id].term && PrevMatches(s.nodes[id].log, req)
    requires Local(c, s, s', id, m, q)
    requires m == StepDown(s.nodes[id], req.term, req.leader).(
                    log := Reconcile(s.nodes[id].log, req.prevIndex, req.entries))
    requires q == s.past[id] || q == s.past[id].(acks := s.past[id].acks[req.term := req.prevIndex + |req.entries|])
    requires Acked(s'.past, id, req.term, req.prevIndex + |req.entries|)
    requires s'.net == s.net + {AppendReturn(req.leader, id, req.term,
                                             AppendResp(req.term, true, req.prevIndex + |req.entries|, 0, 0))}
    ensures Inv(c, s')
    ensures Grows(c, s, s', id)
  {
    LocalGrows(c, s, s', id, m, q);
    FollowsFrom(c, s, id, req);
    MergeKeepsCommitted(c, s, id, req);
    assert NodeOk(c, s, id);
    MergedLog(c, s, id, req, q);
    RepairedNode(c, s, s', id, req, q);
    LocalStep(c, s, s', id, m, q);
  }

  lemma ConflictBound(c: Config, s: State, id: NodeId, req: AppendReq, n: NodeState)
    requires AppendCallOk(s.reigns, s.commits, req) && !PrevMatches(n.log, req)
    ensures !Conflict(n, req).success && Conflict(n, req).conflictIndex < |s.reigns[req.term].log|
  {
  }

  lemma KeepRefuse(c: Config, s: State, s': State, id: NodeId, req: AppendReq, m: NodeState)
    requires Inv(c, s) && id in c.servers && AppendCall(id, req) in s.net
    requires req.term == s.nodes[id].term && !PrevMatches(s.nodes[id].log, req)
    requires m == StepDown(s.nodes[id], req.term, req.leader)
    requires s'.nodes == s.nodes[id := m] && s'.past == s.past && s'.reigns == s.reigns && s'.commits == s.commits
    requires s'.net == s.net + {AppendReturn(req.leader, id, req.term, Conflict(m, req))}
    ensures Inv(c, s')
    ensures Grows(c, s, s', id)
  {
    assert NodeOk(c, s, id);
    var mid := s'.(net := s.net);
    StepDownNode(c, s, mid, id, req.term, req.leader);
    QuietStep(c, s, mid, id, m);
    assert MessageOk(c, s, AppendCall(id, req));
    ConflictBound(c, s, id, req, m);
    assert ReignOk(c, s.past, s.reigns, req.term);
    KeepReply(c, mid, s', AppendReturn(req.leader, id, req.term, Conflict(m, req)), id);
  }

  lemma KeepStale(c: Config, s: State, s': State, id: NodeId, req: AppendReq, term: nat)
    requires Inv(c, s) && id in c.servers && AppendCall(id, req) in s.net
    requires s' == s.(net := s.net + {AppendReturn(req.leader, id, req.term, AppendResp(term, false, 0, 0, 0))})
    ensures Inv(c, s')
    ensures Grows(c, s, s', id)
  {
    assert MessageOk(c, s, AppendCall(id, req));
    assert ReignOk(c, s.past, s.reigns, req.term);
    KeepReply(c, s, s', AppendReturn(req.leader, id, req.term, AppendResp(term, false, 0, 0, 0)), id);
  }

  lemma KeepAnswerAppend(c: Config, s: State, id: NodeId, msg: Message)
    requires ConfigOk(c) && Inv(c, s) && id in c.servers && msg in s.net && msg.AppendCall? && msg.to == id
    requires msg.areq.term <= s.nodes[id].term
    ensures Inv(c, DoAnswerAppend(c, s, id, msg))
    ensures Grows(c, s, DoAnswerAppend(c, s, id, msg), id)
  {
    var s', n, req := DoAnswerAppend(c, s, id, msg), s.nodes[id], msg.areq;
    if req.version != PROTOCOL_VERSION || req.clusterId != c.clusterId || req.term < n.term {
      KeepStale(c, s, s', id, req, n.term);
    } else if !PrevMatches(n.log, req) {
      KeepRefuse(c, s, s', id, req, StepDown(n, req.term, req.leader));
    } else {
      var m, q := s'.nodes[id], s'.past[id];
      assert s'.past == s.past[id := q];
      KeepRepair(c, s, s', id, req, m, q);
    }
  }

  // ---- a follower learns the commit index ----

  lemma LearnJustified(
    R: Reigns, C: Commits, log: seq<LogEntry>, ref: seq<LogEntry>, end: nat, leaderCommit: nat, target: nat, term: nat)
    requires Has(log, ref, end) && Justified(R, C, ref, leaderCommit, term) && target <= end && target <= leaderCommit
    ensures target < |log| && Justified(R, C, log, target, term)
  {
    if target != 0 {
      var t :| t in C && t in R && t <= term && leaderCommit <= C[t].index && Has(ref, R[t].log, leaderCommit);
      HasTrans(log, ref, R[t].log, end, leaderCommit, target);
    }
  }

  lemma CommitNode(c: Config, s: State, s': State, id: NodeId, k: nat)
    requires Shaped(c, s) && Shaped(c, s') && id in c.servers && NodeOk(c, s, id)
    requires s'.nodes[id] == s.nodes[id].(commit := k) && s'.past == s.past && s'.reigns == s.reigns
    requires s.nodes[id].commit <= k < |s.nodes[id].log|
    requires Justified(s'.reigns, s'.commits, s.nodes[id].log, k, s.nodes[id].term)
    ensures NodeOk(c, s', id)
  {
    var n := s.nodes[id];
    if n.role == Leader {
      forall p | p in Peers(c, id) ensures ProgressOk(s.past, s'.nodes[id], p) { assert ProgressOk(s.past, n, p); }
    }
  }

  lemma KeepLearn(c: Config, s: State, id: NodeId, req: AppendReq)
    requires Inv(c, s) && id in c.servers && AppendCall(id, req) in s.net
    requires req.term == s.nodes[id].term && PrevMatches(s.nodes[id].log, req)
    requires Reconcile(s.nodes[id].log, req.prevIndex, req.entries) == s.nodes[id].log
    ensures Inv(c, WithNode(s, id, FollowerCommit(s.nodes[id], req)))
    ensures Grows(c, s, WithNode(s, id, FollowerCommit(s.nodes[id], req)), id)
  {
    var n, m := s.nodes[id], FollowerCommit(s.nodes[id], req);
    var s', end := WithNode(s, id, m), req.prevIndex + |req.entries|;
    assert NodeOk(c, s, id);
    if m != n {
      FollowsFrom(c, s, id, req);
      MergeFacts(c, s, id, req);
      LearnJustified(s.reigns, s.commits, n.log, s.reigns[req.term].log, end, req.leaderCommit, m.commit, n.term);
      QuietGrows(c, s, s', id, m);
      CommitNode(c, s, s', id, m.commit);
      QuietStep(c, s, s', id, m);
    } else {
      assert s'.nodes == s.nodes;
      assert s' == s;
    }
  }

  // ---- the leader's side ----

  lemma KeepSend(c: Config, s: State, id: NodeId, p: NodeId)
    requires Inv(c, s) && id in c.servers && s.nodes[id].role == Leader && p in Peers(c, id)
    ensures Inv(c, s.(net := s.net + {AppendCall(p, AppendReqOf(c, id, s.nodes[id], p))}))
    ensures Grows(c, s, s.(net := s.net + {AppendCall(p, AppendReqOf(c, id, s.nodes[id], p))}), id)
  {
    var n := s.nodes[id];
    var req := AppendReqOf(c, id, n, p);
    assert NodeOk(c, s, id);
    assert ProgressOk(s.past, n, p);
    assert req.entries == n.log[req.prevIndex + 1..req.prevIndex + 1 + |req.entries|];
    KeepReply(c, s, s.(net := s.net + {AppendCall(p, req)}), AppendCall(p, req), id);
  }

  /** An acknowledged index lies on the leader's log. */
  lemma AckedBound(c: Config, s: State, p: NodeId, t: nat, index: nat)
    requires Inv(c, s) && Acked(s.past, p, t, index)
    ensures t in s.reigns && index < |s.reigns[t].log|
  {
    assert NodeOk(c, s, p);
  }

  /** The progress of one peer changed soundly. */
  lemma ProgressNode(c: Config, s: State, s': State, id: NodeId, m: NodeState, peer: NodeId)
    requires Quiet(c, s, s', id, m) && NodeOk(c, s, id) && s.nodes[id].role == Leader
    requires m == s.nodes[id].(nexts := m.nexts, matches := m.matches)
    requires forall p {:trigger ProgressOk(s.past, m, p)} :: p in Peers(c, id) && p != peer
               ==> p in m.nexts && p in m.matches && p in s.nodes[id].nexts && p in s.nodes[id].matches
                   && m.nexts[p] == s.nodes[id].nexts[p] && m.matches[p] == s.nodes[id].matches[p]
    requires peer in Peers(c, id) ==> ProgressOk(s.past, m, peer)
    ensures Shaped(c, s') && NodeOk(c, s', id)
  {
    var n := s.nodes[id];
    QuietGrows(c, s, s', id, m);
    forall p | p in Peers(c, id) ensures ProgressOk(s.past, m, p) {
      if p != peer { assert ProgressOk(s.past, n, p); }
    }
  }

  lemma RecordFacts(c: Config, s: State, id: NodeId, msg: Message)
    requires Inv(c, s) && id in c.servers && msg in s.net && msg.AppendReturn? && msg.to == id
    requires s.nodes[id].role == Leader && msg.sent == s.nodes[id].term && msg.aresp.term <= s.nodes[id].term
    ensures var m := OnAppendResp(s.nodes[id], msg.from, msg.sent, msg.aresp);
            msg.from in Peers(c, id) && ProgressOk(s.past, m, msg.from)
  {
    var n, r := s.nodes[id], msg.aresp;
    assert NodeOk(c, s, id);
    assert MessageOk(c, s, msg);
    assert ProgressOk(s.past, n, msg.from);
    if r.success { AckedBound(c, s, msg.from, msg.sent, r.matchIndex); }
  }

  lemma KeepRecord(c: Config, s: State, id: NodeId, msg: Message)
    requires Inv(c, s) && id in c.servers && msg in s.net && msg.AppendReturn? && msg.to == id
    requires msg.aresp.term <= s.nodes[id].term
    ensures Inv(c, WithNode(s, id, OnAppendResp(s.nodes[id], msg.from, msg.sent, msg.aresp)))
    ensures Grows(c, s, WithNode(s, id, OnAppendResp(s.nodes[id], msg.from, msg.sent, msg.aresp)), id)
  {
    var n, m := s.nodes[id], OnAppendResp(s.nodes[id], msg.from, msg.sent, msg.aresp);
    var s' := WithNode(s, id, m);
    assert NodeOk(c, s, id);
    if n.role == Leader && msg.sent == n.term {
      RecordFacts(c, s, id, msg);
      forall p | p in Peers(c, id) && p != msg.from
        ensures p in m.nexts && p in m.matches && p in n.nexts && p in n.matches
                && m.nexts[p] == n.nexts[p] && m.matches[p] == n.matches[p]
      {
        assert ProgressOk(s.past, n, p);
      }
      ProgressNode(c, s, s', id, m, msg.from);
      QuietStep(c, s, s', id, m);
    } else {
      assert s'.nodes == s.nodes;
      assert s' == s;
    }
  }

  // ---- commit by counting ----

  lemma HoldersAcked(c: Config, s: State, id: NodeId, k: nat)
    requires Shaped(c, s) && id in c.servers && NodeOk(c, s, id) && s.nodes[id].role == Leader && 1 <= k
    ensures forall p {:trigger Acked(s.past, p, s.nodes[id].term, k)} ::
              p in Holders(c, id, s.nodes[id], k) ==> Acked(s.past, p, s.nodes[id].term, k)
  {
    var n := s.nodes[id];
    forall p | p in Holders(c, id, n, k) ensures Acked(s.past, p, n.term, k) {
      if p != id { assert ProgressOk(s.past, n, p); }
    }
  }

  lemma AdvanceGrows(c: Config, s: State, s': State, id: NodeId, m: NodeState)
    requires Shaped(c, s) && id in c.servers
    requires s'.nodes == s.nodes[id := m] && s'.past == s.past && s'.reigns == s.reigns && s'.net == s.net
    requires forall t :: t in s.commits ==> t in s'.commits && s'.commits[t].index >= s.commits[t].index
    ensures Grows(c, s, s', id) && s'.nodes[id] == m
  {
    assert s'.nodes.Keys == c.servers;
    assert s'.nodes == s.nodes[id := s'.nodes[id]];
    assert s'.past == s.past[id := s'.past[id]];
  }

  lemma KeepAdvance(c: Config, s: State, id: NodeId, k: nat)
    requires Inv(c, s) && id in c.servers && s.nodes[id].role == Leader && Committable(c, id, s.nodes[id], k)
    ensures Inv(c, DoAdvanceCommit(c, s, id, k))
    ensures Grows(c, s, DoAdvanceCommit(c, s, id, k), id)
  {
    var s', n := DoAdvanceCommit(c, s, id, k), s.nodes[id];
    assert NodeOk(c, s, id);
    HoldersAcked(c, s, id, k);
    AdvanceGrows(c, s, s', id, n.(commit := k));
    assert Has(n.log, s.reigns[n.term].log, k);
    CommitNode(c, s, s', id, k);
    Frame(c, s, s', id);
  }

  // ---- proposals ----

  ghost predicate Extended(c: Config, s: State, s': State, id: NodeId, m: NodeState, q: Past, e: LogEntry) {
    && Shaped(c, s) && id in c.servers && s.nodes[id].role == Leader
    && var n := s.nodes[id];
    && n.term in s.reigns && s.reigns[n.term].leader == id
    && m == n.(log := n.log + [e], waiters := m.waiters) && e.index == |n.log| && e.term == n.term
    && q == s.past[id].(acks := s.past[id].acks[n.term := |n.log|])
    && s'.nodes == s.nodes[id := m] && s'.past == s.past[id := q]
    && s'.reigns == s.reigns[n.term := s.reigns[n.term].(log := m.log)]
    && s.reigns[n.term].log == n.log
    && s'.commits == s.commits && s'.net == s.net
    && n.term in s.past[id].acks && s.past[id].acks[n.term] == |n.log| - 1
  }

  lemma ExtendedGrows(c: Config, s: State, s': State, id: NodeId, m: NodeState, q: Past, e: LogEntry)
    requires Extended(c, s, s', id, m, q, e)
    ensures Grows(c, s, s', id) && s'.nodes[id] == m && s'.past[id] == q
  {
    assert s'.nodes.Keys == c.servers && s'.past.Keys == c.servers;
    assert s'.nodes == s.nodes[id := s'.nodes[id]];
    assert s'.past == s.past[id := s'.past[id]];
  }

  lemma ExtendedLeader(c: Config, s: State, s': State, id: NodeId, m: NodeState, q: Past, e: LogEntry)
    requires Extended(c, s, s', id, m, q, e) && LeaderOk(c, s.past, s.reigns, id, s.nodes[id])
    requires PastsGrow(s.past, s'.past, id)
    ensures LeaderOk(c, s'.past, s'.reigns, id, m)
  {
    var n := s.nodes[id];
    forall p | p in Peers(c, id) ensures ProgressOk(s'.past, m, p) {
      assert ProgressOk(s.past, n, p);
      if n.matches[p] != 0 { AckedGrows(s.past, s'.past, id, p, n.term, n.matches[p]); }
    }
  }

  lemma ExtendedNode(c: Config, s: State, s': State, id: NodeId, m: NodeState, q: Past, e: LogEntry)
    requires Extended(c, s, s', id, m, q, e) && Grows(c, s, s', id) && s'.nodes[id] == m && s'.past[id] == q
    requires NodeOk(c, s, id) && 1 <= s.nodes[id].term
    ensures NodeOk(c, s', id)
  {
    var n, R, S := s.nodes[id], s.reigns, s'.reigns;
    VotesOkGrows(c, s.past, s'.past, R, S, id, id, n.term, n.vote);
    forall v | v in q.ballots ensures v <= n.term { VotesAreOld(c, s.past, R, id, n.term, n.vote, v); }
    ExtendLog(R, S, id, n.log, e, n.term);
    ExtendAcks(R, S, s.past[id], q, id, n.log, e, n.term);
    ExtendedLeader(c, s, s', id, m, q, e);
    JustifiedGrows(R, S, s.commits, s'.commits, id, n.log, n.commit, n.term, n.term);
    JustifiedLonger(S, s'.commits, n.log, m.log, n.commit, n.term);
  }

  lemma ExtendedReign(c: Config, s: State, s': State, id: NodeId, m: NodeState, q: Past, e: LogEntry)
    requires Extended(c, s, s', id, m, q, e) && ReignOk(c, s.past, s.reigns, s.nodes[id].term)
    requires LogOk(s'.reigns, m.log, m.term)
    ensures ReignOk(c, s'.past, s'.reigns, s.nodes[id].term)
  {
    var t := s.nodes[id].term;
    forall p | p in s.reigns[t].voters ensures VotedFor(s'.past, p, t, id) {
      assert VotedFor(s.past, p, t, id);
    }
  }

  lemma KeepExtended(c: Config, s: State, s': State, id: NodeId, m: NodeState, q: Past, e: LogEntry)
    requires Inv(c, s) && Extended(c, s, s', id, m, q, e)
    ensures Inv(c, s')
    ensures Grows(c, s, s', id)
  {
    ExtendedGrows(c, s, s', id, m, q, e);
    assert NodeOk(c, s, id);
    ReignFacts(c, s, s.nodes[id].term);
    ExtendedNode(c, s, s', id, m, q, e);
    assert ReignOk(c, s.past, s.reigns, s.nodes[id].term);
    ExtendedReign(c, s, s', id, m, q, e);
    Frame(c, s, s', id);
  }

  lemma KeepPropose(c: Config, s: State, id: NodeId, command: Command, ticket: nat)
    requires Inv(c, s) && id in c.servers && s.nodes[id].role == Leader
    ensures Inv(c, DoPropose(c, s, id, command, ticket))
    ensures Grows(c, s, DoPropose(c, s, id, command, ticket), id)
  {
    var s', n := DoPropose(c, s, id, command, ticket), s.nodes[id];
    assert NodeOk(c, s, id);
    KeepExtended(c, s, s', id, s'.nodes[id], s'.past[id], LogEntry(|n.log|, n.term, Carries(command)));
  }
}
