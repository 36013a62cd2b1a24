/**
  Every step of the cluster keeps the invariant.  The history only grows, so what
  holds of the members that did not act carries over (`Frame`); each step then
  accounts for the member that did.
 */
module ClusterSteps {
  import opened Models
  import opened RaftNode
  import opened Cluster
  import opened ClusterInvariant

  // ---- growth of the history ----

  ghost predicate PastGrows(p: Past, q: Past) {
    && (forall t :: t in p.ballots ==> t in q.ballots && q.ballots[t] == p.ballots[t])
    && (forall t :: t in p.runs ==> t in q.runs && q.runs[t] == p.runs[t])
    && (forall t :: t in p.acks ==> t in q.acks && q.acks[t] >= p.acks[t])
  }

  ghost predicate ReignGrows(R: Reigns, S: Reigns, t: nat, actor: NodeId)
    requires t in R
  {
    && t in S
    && S[t].leader == R[t].leader && S[t].voters == R[t].voters && S[t].base == R[t].base
    && R[t].log <= S[t].log
    && (S[t].log == R[t].log || R[t].leader == actor)
  }

  ghost predicate ReignsGrow(R: Reigns, S: Reigns, actor: NodeId) {
    && (forall t {:trigger ReignGrows(R, S, t, actor)} :: t in R ==> ReignGrows(R, S, t, actor))
    && (forall t {:trigger S[t]} :: t in S && t !in R ==> S[t].leader == actor)
  }

  ghost predicate CommitGrows(C: Commits, D: Commits, t: nat)
    requires t in C
  {
    t in D && D[t].index >= C[t].index
  }

  ghost predicate PastsGrow(P: Pasts, Q: Pasts, actor: NodeId) {
    && actor in P && actor in Q
    && Q == P[actor := Q[actor]]
    && PastGrows(P[actor], Q[actor])
  }

  /** Only `actor` changed, and the history was only added to. */
  ghost predicate Grows(c: Config, s: State, s': State, actor: NodeId) {
    && Shaped(c, s) && Shaped(c, s')
    && actor in c.servers
    && s'.nodes == s.nodes[actor := s'.nodes[actor]]
    && PastsGrow(s.past, s'.past, actor)
    && ReignsGrow(s.reigns, s'.reigns, actor)
    && (forall t {:trigger CommitGrows(s.commits, s'.commits, t)} ::
          t in s.commits ==> CommitGrows(s.commits, s'.commits, t))
    && s.net <= s'.net
  }

  // ---- each part of the invariant survives growth ----

  lemma HasGrows(R: Reigns, S: Reigns, actor: NodeId, log: seq<LogEntry>, t: nat, j: nat)
    requires ReignsGrow(R, S, actor) && t in R && j < |R[t].log|
    ensures t in S && (Has(log, R[t].log, j) <==> Has(log, S[t].log, j))
  {
    assert ReignGrows(R, S, t, actor);
    HasPrefix(log, R[t].log, S[t].log, j);
  }

  lemma LogOkGrows(R: Reigns, S: Reigns, actor: NodeId, log: seq<LogEntry>, term: nat)
    requires ReignsGrow(R, S, actor) && LogOk(R, log, term)
    ensures LogOk(S, log, term)
  {
    forall i | 1 <= i < |log| ensures EntryGrounded(S, log, i) {
      assert EntryGrounded(R, log, i);
      HasGrows(R, S, actor, log, log[i].term, i);
    }
  }

  lemma KeptGrows(R: Reigns, S: Reigns, actor: NodeId, log: seq<LogEntry>, t: nat, j: nat, hi: nat)
    requires ReignsGrow(R, S, actor) && t in R && j < |R[t].log| && Kept(R, log, t, j, hi)
    ensures Kept(S, log, t, j, hi)
  {
    HasGrows(R, S, actor, log, t, j);
    if !Has(log, R[t].log, j) {
      var u :| t < u < hi && u in R && !Has(R[u].base, R[t].log, j);
      assert ReignGrows(R, S, u, actor);
      HasGrows(R, S, actor, R[u].base, t, j);
      assert u in S && !Has(S[u].base, S[t].log, j);
    }
  }

  lemma VotesOkGrows(
    c: Config, P: Pasts, Q: Pasts, R: Reigns, S: Reigns, actor: NodeId, id: NodeId, term: nat, vote: NodeId)
    requires ReignsGrow(R, S, actor) && PastsGrow(P, Q, actor)
    requires id in P && VotesOk(c, P, R, id, term, vote)
    requires Q[id].ballots == P[id].ballots && Q[id].runs == P[id].runs
    ensures VotesOk(c, Q, S, id, term, vote)
  {
    forall t | t in Q[id].ballots ensures t <= term && BallotOk(c, Q, S, t, Q[id].ballots[t]) {
      assert BallotOk(c, P, R, t, P[id].ballots[t]);
      BallotOkGrows(c, P, Q, R, S, actor, t, P[id].ballots[t]);
    }
    forall t | t in Q[id].runs ensures t <= term && RunOk(Q, S, id, t) {
      assert RunOk(P, R, id, t);
      LogOkGrows(R, S, actor, P[id].runs[t], t - 1);
    }
  }

  lemma BallotOkGrows(c: Config, P: Pasts, Q: Pasts, R: Reigns, S: Reigns, actor: NodeId, t: nat, b: Ballot)
    requires ReignsGrow(R, S, actor) && PastsGrow(P, Q, actor) && BallotOk(c, P, R, t, b)
    ensures BallotOk(c, Q, S, t, b)
  {
    LogOkGrows(R, S, actor, b.log, t);
  }

  /** New elections can only make a vote irrelevant, so kept prefixes stay kept. */
  lemma AcksOkGrows(R: Reigns, S: Reigns, actor: NodeId, past: Past, id: NodeId, log: seq<LogEntry>, term: nat)
    requires ReignsGrow(R, S, actor) && AcksOk(R, past, id, log, term)
    ensures AcksOk(S, past, id, log, term)
  {
    forall t | t in past.acks ensures 1 <= t <= term && t in S && past.acks[t] < |S[t].log| {
      assert ReignGrows(R, S, t, actor);
    }
    var hi := term + 1;
    forall t, j | t in past.acks && 1 <= j <= past.acks[t] ensures Kept(S, log, t, j, hi) {
      assert Kept(R, log, t, j, hi);
      KeptGrows(R, S, actor, log, t, j, hi);
    }
    forall v, t, j | v in past.ballots && t in past.acks && t < v && 1 <= j <= past.acks[t] && Relevant(S, id, v)
      ensures Kept(S, past.ballots[v].log, t, j, v)
    {
      assert Relevant(R, id, v) by { if v in R { assert ReignGrows(R, S, v, actor); } }
      assert Kept(R, past.ballots[v].log, t, j, v);
      KeptGrows(R, S, actor, past.ballots[v].log, t, j, v);
    }
  }

  lemma AckedGrows(P: Pasts, Q: Pasts, actor: NodeId, p: NodeId, t: nat, index: nat)
    requires PastsGrow(P, Q, actor) && Acked(P, p, t, index)
    ensures Acked(Q, p, t, index)
  {
  }

  lemma VotedForGrows(P: Pasts, Q: Pasts, actor: NodeId, p: NodeId, t: nat, candidate: NodeId)
    requires PastsGrow(P, Q, actor) && VotedFor(P, p, t, candidate)
    ensures VotedFor(Q, p, t, candidate)
  {
  }

  lemma LeaderOkGrows(c: Config, P: Pasts, Q: Pasts, R: Reigns, S: Reigns, actor: NodeId, id: NodeId, n: NodeState)
    requires ReignsGrow(R, S, actor) && PastsGrow(P, Q, actor)
    requires id in P && LeaderOk(c, P, R, id, n)
    requires n.role == Leader ==> n.term in S && S[n.term].log == R[n.term].log && Q[id].acks == P[id].acks
    ensures LeaderOk(c, Q, S, id, n)
  {
    if n.role == Leader {
      assert ReignGrows(R, S, n.term, actor);
      forall p | p in Peers(c, id) ensures ProgressOk(Q, n, p) {
        assert ProgressOk(P, n, p);
        if n.matches[p] != 0 { AckedGrows(P, Q, actor, p, n.term, n.matches[p]); }
      }
    }
  }

  lemma CandidateOkGrows(c: Config, P: Pasts, Q: Pasts, R: Reigns, S: Reigns, actor: NodeId, id: NodeId, n: NodeState)
    requires ReignsGrow(R, S, actor) && PastsGrow(P, Q, actor)
    requires id in P && CandidateOk(c, P, R, id, n)
    requires Q[id].runs == P[id].runs && Q[id].tally == P[id].tally && Q[id].pending <= P[id].pending
    requires n.role == Candidate && n.term in S && n.term !in R ==> actor != id
    ensures CandidateOk(c, Q, S, id, n)
  {
    if n.role == Candidate {
      if n.term in R { assert ReignGrows(R, S, n.term, actor); }
      forall p | p in Q[id].tally ensures VotedFor(Q, p, n.term, id) && (p == id || (p, n.term) !in Q[id].pending) {
        assert VotedFor(P, p, n.term, id);
        VotedForGrows(P, Q, actor, p, n.term, id);
      }
    }
  }

  lemma JustifiedGrows(
    R: Reigns, S: Reigns, C: Commits, D: Commits, actor: NodeId, log: seq<LogEntry>, index: nat, term: nat, later: nat)
    requires ReignsGrow(R, S, actor) && term <= later
    requires forall t {:trigger CommitGrows(C, D, t)} :: t in C ==> CommitGrows(C, D, t)
    requires Justified(R, C, log, index, term)
    ensures Justified(S, D, log, index, later)
  {
    if index != 0 {
      var t :| t in C && t in R && t <= term && index <= C[t].index && Has(log, R[t].log, index);
      assert CommitGrows(C, D, t);
      HasGrows(R, S, actor, log, t, index);
    }
  }

  lemma NodeOkGrows(c: Config, s: State, s': State, actor: NodeId, id: NodeId)
    requires Grows(c, s, s', actor) && id in c.servers && id != actor && NodeOk(c, s, id)
    ensures NodeOk(c, s', id)
  {
    var n := s.nodes[id];
    assert s'.nodes[id] == n && s'.past[id] == s.past[id];
    LogOkGrows(s.reigns, s'.reigns, actor, n.log, n.term);
    VotesOkGrows(c, s.past, s'.past, s.reigns, s'.reigns, actor, id, n.term, n.vote);
    AcksOkGrows(s.reigns, s'.reigns, actor, s.past[id], id, n.log, n.term);
    LeaderOkGrows(c, s.past, s'.past, s.reigns, s'.reigns, actor, id, n) by {
      if n.role == Leader { assert ReignGrows(s.reigns, s'.reigns, n.term, actor); }
    }
    CandidateOkGrows(c, s.past, s'.past, s.reigns, s'.reigns, actor, id, n);
    JustifiedGrows(s.reigns, s'.reigns, s.commits, s'.commits, actor, n.log, n.commit, n.term, n.term);
  }

  lemma ReignOkGrows(c: Config, s: State, s': State, actor: NodeId, t: nat)
    requires Grows(c, s, s', actor) && t in s.reigns && ReignOk(c, s.past, s.reigns, t)
    requires t in s'.reigns && s'.reigns[t] == s.reigns[t]
    ensures ReignOk(c, s'.past, s'.reigns, t)
  {
    var r := s.reigns[t];
    forall p | p in r.voters ensures VotedFor(s'.past, p, t, r.leader) {
      assert VotedFor(s.past, p, t, r.leader);
      VotedForGrows(s.past, s'.past, actor, p, t, r.leader);
    }
  }

  lemma CommitmentOkGrows(c: Config, s: State, s': State, actor: NodeId, t: nat, k: Commitment)
    requires Grows(c, s, s', actor) && CommitmentOk(c, s.past, s.reigns, t, k)
    ensures CommitmentOk(c, s'.past, s'.reigns, t, k)
  {
    assert ReignGrows(s.reigns, s'.reigns, t, actor);
    forall p | p in k.holders ensures Acked(s'.past, p, t, k.index) {
      assert Acked(s.past, p, t, k.index);
      AckedGrows(s.past, s'.past, actor, p, t, k.index);
    }
  }

  lemma JustifiedLonger(R: Reigns, C: Commits, log: seq<LogEntry>, longer: seq<LogEntry>, index: nat, term: nat)
    requires Justified(R, C, log, index, term) && log <= longer && index < |log|
    ensures Justified(R, C, longer, index, term)
  {
    if index != 0 {
      var t :| t in C && t in R && t <= term && index <= C[t].index && Has(log, R[t].log, index);
      HasPrefix(R[t].log, log, longer, index);
      assert Has(longer, R[t].log, index) by { assert Has(R[t].log, longer, index); }
    }
  }

  lemma AppendCallOkGrows(R: Reigns, S: Reigns, C: Commits, D: Commits, actor: NodeId, req: AppendReq)
    requires ReignsGrow(R, S, actor) && AppendCallOk(R, C, req)
    requires forall t {:trigger CommitGrows(C, D, t)} :: t in C ==> CommitGrows(C, D, t)
    ensures AppendCallOk(S, D, req)
  {
    var t := req.term;
    assert ReignGrows(R, S, t, actor);
    JustifiedGrows(R, S, C, D, actor, R[t].log, req.leaderCommit, t, t);
    JustifiedLonger(S, D, R[t].log, S[t].log, req.leaderCommit, t);
    var lo, hi := req.prevIndex + 1, req.prevIndex + 1 + |req.entries|;
    assert R[t].log[lo..hi] == S[t].log[lo..hi];
  }

  lemma VoteCallOkGrows(c: Config, s: State, s': State, actor: NodeId, to: NodeId, r: VoteReq)
    requires Grows(c, s, s', actor) && MessageOk(c, s, VoteCall(to, r))
    ensures MessageOk(c, s', VoteCall(to, r))
  {
  }

  lemma AppendReturnOkGrows(
    c: Config, s: State, s': State, actor: NodeId, to: NodeId, from: NodeId, sent: nat, r: AppendResp)
    requires Grows(c, s, s', actor) && MessageOk(c, s, AppendReturn(to, from, sent, r))
    ensures MessageOk(c, s', AppendReturn(to, from, sent, r))
  {
    assert ReignGrows(s.reigns, s'.reigns, sent, actor);
    if r.success { AckedGrows(s.past, s'.past, actor, from, sent, r.matchIndex); }
  }

  lemma MessageOkGrows(c: Config, s: State, s': State, actor: NodeId, m: Message)
    requires Grows(c, s, s', actor) && MessageOk(c, s, m)
    ensures MessageOk(c, s', m)
  {
    match m
    case VoteCall(to, r) => VoteCallOkGrows(c, s, s', actor, to, r);
    case VoteReturn(to, from, sent, r) =>
      if r.granted { VotedForGrows(s.past, s'.past, actor, from, sent, to); }
    case AppendCall(_, r) => 
      AppendCallOkGrows(s.reigns, s'.reigns, s.commits, s'.commits, actor, r);
      assert ReignGrows(s.reigns, s'.reigns, r.term, actor);
    case AppendReturn(to, from, sent, r) => AppendReturnOkGrows(c, s, s', actor, to, from, sent, r);
  }

  /** The parts of the invariant that a step of `actor` has to establish itself. */
  ghost predicate ActorOk(c: Config, s: State, s': State, actor: NodeId) {
    && Shaped(c, s')
    && (actor in c.servers ==> NodeOk(c, s', actor))
    && (forall t {:trigger ReignOk(c, s'.past, s'.reigns, t)} ::
          t in s'.reigns && (t !in s.reigns || s'.reigns[t] != s.reigns[t]) ==> ReignOk(c, s'.past, s'.reigns, t))
    && (forall t {:trigger CommitmentOk(c, s'.past, s'.reigns, t, s'.commits[t])} ::
          t in s'.commits && (t !in s.commits || s'.commits[t] != s.commits[t])
          ==> CommitmentOk(c, s'.past, s'.reigns, t, s'.commits[t]))
    && (forall m {:trigger MessageOk(c, s', m)} :: m in s'.net && m !in s.net ==> MessageOk(c, s', m))
  }

  lemma FrameNodes(c: Config, s: State, s': State, actor: NodeId, id: NodeId)
    requires Inv(c, s) && Grows(c, s, s', actor) && ActorOk(c, s, s', actor) && id in c.servers
    ensures NodeOk(c, s', id)
  {
    if id != actor {
      assert NodeOk(c, s, id);
      NodeOkGrows(c, s, s', actor, id);
    }
  }

  lemma FrameReigns(c: Config, s: State, s': State, actor: NodeId, t: nat)
    requires Inv(c, s) && Grows(c, s, s', actor) && ActorOk(c, s, s', actor) && t in s'.reigns
    ensures ReignOk(c, s'.past, s'.reigns, t)
  {
    if t in s.reigns && s'.reigns[t] == s.reigns[t] {
      assert ReignOk(c, s.past, s.reigns, t);
      ReignOkGrows(c, s, s', actor, t);
    }
  }

  lemma FrameCommits(c: Config, s: State, s': State, actor: NodeId, t: nat)
    requires Inv(c, s) && Grows(c, s, s', actor) && ActorOk(c, s, s', actor) && t in s'.commits
    ensures CommitmentOk(c, s'.past, s'.reigns, t, s'.commits[t])
  {
    if t in s.commits && s'.commits[t] == s.commits[t] {
      assert CommitmentOk(c, s.past, s.reigns, t, s.commits[t]);
      CommitmentOkGrows(c, s, s', actor, t, s.commits[t]);
    }
  }

  lemma FrameMessages(c: Config, s: State, s': State, actor: NodeId, m: Message)
    requires Inv(c, s) && Grows(c, s, s', actor) && ActorOk(c, s, s', actor) && m in s'.net
    ensures MessageOk(c, s', m)
  {
    if m in s.net {
      assert MessageOk(c, s, m);
      MessageOkGrows(c, s, s', actor, m);
    }
  }

  lemma Frame(c: Config, s: State, s': State, actor: NodeId)
    requires Inv(c, s) && Grows(c, s, s', actor) && ActorOk(c, s, s', actor)
    ensures Inv(c, s')
  {
    forall id | id in c.servers ensures NodeOk(c, s', id) { FrameNodes(c, s, s', actor, id); }
    forall t | t in s'.reigns ensures ReignOk(c, s'.past, s'.reigns, t) { FrameReigns(c, s, s', actor, t); }
    forall t | t in s'.commits ensures CommitmentOk(c, s'.past, s'.reigns, t, s'.commits[t]) {
      FrameCommits(c, s, s', actor, t);
    }
    forall m | m in s'.net ensures MessageOk(c, s', m) { FrameMessages(c, s, s', actor, m); }
  }
}
