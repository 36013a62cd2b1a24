/**
  The invariant is preserved by each kind of step, and so holds in every
  reachable state.
 */
module ClusterPreserve {
  import opened Models
  import opened RaftNode
  import opened Cluster
  import opened ClusterInvariant
  import opened ClusterSteps

  /** The step replaces the actor by `n` and its record by `p`; messages may be added. */
  ghost predicate Local(c: Config, s: State, s': State, id: NodeId, n: NodeState, p: Past) {
    && Shaped(c, s) && id in c.servers
    && s'.nodes == s.nodes[id := n]
    && s'.past == s.past[id := p] && PastGrows(s.past[id], p)
    && s'.reigns == s.reigns && s'.commits == s.commits && s.net <= s'.net
  }

  lemma LocalGrows(c: Config, s: State, s': State, id: NodeId, n: NodeState, p: Past)
    requires Local(c, s, s', id, n, p)
    ensures Grows(c, s, s', id)
    ensures s'.nodes[id] == n && s'.past[id] == p
  {
    assert s'.nodes.Keys == c.servers && s'.past.Keys == c.servers;
    assert s'.nodes == s.nodes[id := s'.nodes[id]];
    assert s'.past == s.past[id := s'.past[id]];
  }

  lemma LocalStep(c: Config, s: State, s': State, id: NodeId, n: NodeState, p: Past)
    requires Inv(c, s) && Local(c, s, s', id, n, p)
    requires Shaped(c, s') && NodeOk(c, s', id)
    requires forall m {:trigger MessageOk(c, s', m)} :: m in s'.net && m !in s.net ==> MessageOk(c, s', m)
    ensures Inv(c, s')
    ensures Grows(c, s, s', id)
  {
    LocalGrows(c, s, s', id, n, p);
    Frame(c, s, s', id);
  }

  /** A step that changes only the actor's own fields. */
  ghost predicate Quiet(c: Config, s: State, s': State, id: NodeId, n: NodeState) {
    && Shaped(c, s) && id in c.servers
    && s'.nodes == s.nodes[id := n]
    && s'.past == s.past && s'.reigns == s.reigns && s'.commits == s.commits && s'.net == s.net
  }

  lemma QuietGrows(c: Config, s: State, s': State, id: NodeId, n: NodeState)
    requires Quiet(c, s, s', id, n)
    ensures Shaped(c, s') && s'.nodes[id] == n
    ensures Grows(c, s, s', id)
  {
    assert s'.past == s.past[id := s.past[id]];
    LocalGrows(c, s, s', id, n, s.past[id]);
  }

  lemma QuietStep(c: Config, s: State, s': State, id: NodeId, n: NodeState)
    requires Inv(c, s) && Quiet(c, s, s', id, n)
    requires Shaped(c, s') && NodeOk(c, s', id)
    ensures Inv(c, s')
    ensures Grows(c, s, s', id)
  {
    QuietGrows(c, s, s', id, n);
    Frame(c, s, s', id);
  }

  /** The invariant does not look at waiters, the leader hint or the application state. */
  lemma VolatileSame(c: Config, s: State, s': State, id: NodeId, m: NodeState)
    requires Quiet(c, s, s', id, m) && NodeOk(c, s, id)
    requires var n := s.nodes[id];
             && m.term == n.term && m.vote == n.vote && m.log == n.log && m.commit == n.commit
             && m.role == n.role && m.votes == n.votes && m.nexts == n.nexts && m.matches == n.matches
             && m.applied <= m.commit
    ensures Shaped(c, s') && NodeOk(c, s', id)
  {
    QuietGrows(c, s, s', id, m);
    var n := s.nodes[id];
    if n.role == Leader {
      forall p | p in Peers(c, id) ensures ProgressOk(s.past, m, p) { assert ProgressOk(s.past, n, p); }
    }
  }

  lemma KeepVolatile(c: Config, s: State, s': State, id: NodeId, m: NodeState)
    requires Inv(c, s) && Quiet(c, s, s', id, m)
    requires var n := s.nodes[id];
             && m.term == n.term && m.vote == n.vote && m.log == n.log && m.commit == n.commit
             && m.role == n.role && m.votes == n.votes && m.nexts == n.nexts && m.matches == n.matches
             && m.applied <= m.commit
    ensures Inv(c, s')
    ensures Grows(c, s, s', id)
  {
    assert NodeOk(c, s, id);
    VolatileSame(c, s, s', id, m);
    QuietStep(c, s, s', id, m);
  }

  lemma KeepApply(c: Config, s: State, id: NodeId)
    requires Inv(c, s) && id in c.servers && CanApply(c, s.nodes[id])
    ensures Inv(c, DoApply(c, s, id))
    ensures Grows(c, s, DoApply(c, s, id), id)
  {
    KeepVolatile(c, s, DoApply(c, s, id), id, ApplyNext(c, s.nodes[id]));
  }

  lemma KeepDeregister(c: Config, s: State, id: NodeId, k: nat)
    requires Inv(c, s) && id in c.servers
    ensures Inv(c, WithNode(s, id, s.nodes[id].(waiters := s.nodes[id].waiters - {k})))
    ensures Grows(c, s, WithNode(s, id, s.nodes[id].(waiters := s.nodes[id].waiters - {k})), id)
  {
    var m := s.nodes[id].(waiters := s.nodes[id].waiters - {k});
    assert NodeOk(c, s, id);
    KeepVolatile(c, s, WithNode(s, id, m), id, m);
  }

  lemma VotesOkLater(c: Config, P: Pasts, R: Reigns, id: NodeId, term: nat, vote: NodeId, later: nat)
    requires id in P && VotesOk(c, P, R, id, term, vote) && term < later
    ensures VotesOk(c, P, R, id, later, "")
  {
    var past := P[id];
    forall t | t in past.ballots ensures t < later && BallotOk(c, P, R, t, past.ballots[t]) {
      assert BallotOk(c, P, R, t, past.ballots[t]);
    }
    forall t | t in past.runs ensures t < later && RunOk(P, R, id, t) {
      assert RunOk(P, R, id, t);
    }
  }

  lemma StepDownNode(c: Config, s: State, s': State, id: NodeId, term: nat, leader: NodeId)
    requires Shaped(c, s) && id in c.servers && NodeOk(c, s, id) && term >= s.nodes[id].term
    requires Quiet(c, s, s', id, StepDown(s.nodes[id], term, leader))
    ensures Shaped(c, s') && NodeOk(c, s', id)
  {
    var n, m := s.nodes[id], StepDown(s.nodes[id], term, leader);
    QuietGrows(c, s, s', id, m);
    if term > n.term { VotesOkLater(c, s.past, s.reigns, id, n.term, n.vote, term); }
    AcksOkLater(s.reigns, s.past[id], id, n.log, n.term, term);
    JustifiedGrows(s.reigns, s.reigns, s.commits, s.commits, id, n.log, n.commit, n.term, term);
  }

  lemma KeepObserveTerm(c: Config, s: State, id: NodeId, term: nat)
    requires Inv(c, s) && id in c.servers && term >= s.nodes[id].term
    ensures Inv(c, DoObserve(c, s, id, term))
    ensures Grows(c, s, DoObserve(c, s, id, term), id)
  {
    var s' := DoObserve(c, s, id, term);
    assert NodeOk(c, s, id);
    StepDownNode(c, s, s', id, term, "");
    QuietStep(c, s, s', id, StepDown(s.nodes[id], term, ""));
  }

  /** Moving to a later term forgets no acknowledged prefix. */
  lemma AcksOkLater(R: Reigns, past: Past, id: NodeId, log: seq<LogEntry>, term: nat, later: nat)
    requires AcksOk(R, past, id, log, term) && term <= later
    ensures AcksOk(R, past, id, log, later)
  {
    var lo, hi := term + 1, later + 1;
    forall t, j | t in past.acks && 1 <= j <= past.acks[t] ensures Kept(R, log, t, j, hi) {
      assert Kept(R, log, t, j, lo);
      KeptLater(R, log, t, j, lo, hi);
    }
    forall v, t, j | v in past.ballots && t in past.acks && t < v && 1 <= j <= past.acks[t] && Relevant(R, id, v)
      ensures Kept(R, past.ballots[v].log, t, j, v)
    {
      assert Kept(R, past.ballots[v].log, t, j, v);
    }
  }

  lemma KeptLater(R: Reigns, log: seq<LogEntry>, t: nat, j: nat, lo: nat, hi: nat)
    requires Kept(R, log, t, j, lo) && lo <= hi
    ensures Kept(R, log, t, j, hi)
  {
  }

  lemma LoseVoteNode(c: Config, s: State, s': State, id: NodeId, q: Past)
    requires Shaped(c, s) && id in c.servers
    requires Local(c, s, s', id, s.nodes[id], q) && NodeOk(c, s, id)
    requires q == s.past[id].(pending := q.pending) && q.pending <= s.past[id].pending
    ensures Shaped(c, s') && NodeOk(c, s', id)
  {
    var n := s.nodes[id];
    LocalGrows(c, s, s', id, n, q);
    VotesOkGrows(c, s.past, s'.past, s.reigns, s'.reigns, id, id, n.term, n.vote);
    AcksSame(s.reigns, s.past[id], q, id, n.log, n.term);
    LeaderOkGrows(c, s.past, s'.past, s.reigns, s'.reigns, id, id, n);
    CandidateOkGrows(c, s.past, s'.past, s.reigns, s'.reigns, id, id, n);
  }

  lemma KeepLoseVote(c: Config, s: State, id: NodeId, p: NodeId, t: nat)
    requires Inv(c, s) && id in c.servers
    ensures Inv(c, DoLoseVote(c, s, id, p, t))
    ensures Grows(c, s, DoLoseVote(c, s, id, p, t), id)
  {
    var s', n := DoLoseVote(c, s, id, p, t), s.nodes[id];
    var q := s.past[id].(pending := s.past[id].pending - {(p, t)});
    assert s'.nodes == s.nodes[id := n];
    assert NodeOk(c, s, id);
    LoseVoteNode(c, s, s', id, q);
    LocalStep(c, s, s', id, n, q);
  }

  /** Acknowledgements and ballots are all that `AcksOk` reads of a past. */
  lemma AcksSame(R: Reigns, p: Past, q: Past, id: NodeId, log: seq<LogEntry>, term: nat)
    requires AcksOk(R, p, id, log, term) && q.acks == p.acks && q.ballots == p.ballots
    ensures AcksOk(R, q, id, log, term)
  {
    var hi := term + 1;
    forall t, j | t in q.acks && 1 <= j <= q.acks[t] ensures Kept(R, log, t, j, hi) {
      assert Kept(R, log, t, j, hi);
    }
    forall v, t, j | v in q.ballots && t in q.acks && t < v && 1 <= j <= q.acks[t] && Relevant(R, id, v)
      ensures Kept(R, q.ballots[v].log, t, j, v)
    {
      assert Kept(R, p.ballots[v].log, t, j, v);
    }
  }

  lemma CrashNode(c: Config, s: State, s': State, id: NodeId, q: Past)
    requires Shaped(c, s) && id in c.servers
    requires Local(c, s, s', id, Restart(s.nodes[id]), q) && NodeOk(c, s, id)
    requires q == s.past[id].(pending := {}, tally := {})
    ensures Shaped(c, s') && NodeOk(c, s', id)
  {
    var n := s.nodes[id];
    LocalGrows(c, s, s', id, Restart(n), q);
    VotesOkGrows(c, s.past, s'.past, s.reigns, s'.reigns, id, id, n.term, n.vote);
    AcksSame(s.reigns, s.past[id], q, id, n.log, n.term);
  }

  lemma KeepCrash(c: Config, s: State, id: NodeId)
    requires Inv(c, s) && id in c.servers
    ensures Inv(c, DoCrash(c, s, id))
    ensures Grows(c, s, DoCrash(c, s, id), id)
  {
    var s', q := DoCrash(c, s, id), s.past[id].(pending := {}, tally := {});
    assert NodeOk(c, s, id);
    CrashNode(c, s, s', id, q);
    LocalStep(c, s, s', id, Restart(s.nodes[id]), q);
  }

  // ---- elections ----

  lemma TimeoutVotes(c: Config, P: Pasts, Q: Pasts, R: Reigns, id: NodeId, n: NodeState, q: Past)
    requires id in P && id in c.servers && Q == P[id := q] && PastGrows(P[id], q)
    requires LogOk(R, n.log, n.term) && VotesOk(c, P, R, id, n.term, n.vote) && id != ""
    requires q.ballots == P[id].ballots[n.term + 1 := Ballot(id, n.log)]
    requires q.runs == P[id].runs[n.term + 1 := n.log]
    ensures VotesOk(c, Q, R, id, n.term + 1, id)
  {
    var u := n.term + 1;
    forall t | t in q.ballots ensures t <= u && BallotOk(c, Q, R, t, q.ballots[t]) {
      if t != u {
        assert BallotOk(c, P, R, t, P[id].ballots[t]);
        BallotOkGrows(c, P, Q, R, R, id, t, P[id].ballots[t]);
      }
    }
    forall t | t in q.runs ensures t <= u && RunOk(Q, R, id, t) {
      if t != u { assert RunOk(P, R, id, t); }
    }
  }

  /** Acknowledged prefixes, after a vote cast on the current log. */
  lemma AcksWithBallot(
    R: Reigns, p: Past, q: Past, id: NodeId, log: seq<LogEntry>, term: nat, later: nat, candidate: NodeId)
    requires AcksOk(R, p, id, log, term) && term <= later <= term + 1
    requires q.acks == p.acks && q.ballots == p.ballots[later := Ballot(candidate, log)]
    requires later == term ==> !Relevant(R, id, term) || term !in R
    ensures AcksOk(R, q, id, log, later)
  {
    AcksOkLater(R, p, id, log, term, later);
    var hi, lo := later + 1, term + 1;
    forall t, j | t in q.acks && 1 <= j <= q.acks[t] ensures Kept(R, log, t, j, hi) {
      assert Kept(R, log, t, j, hi);
    }
    forall v, t, j | v in q.ballots && t in q.acks && t < v && 1 <= j <= q.acks[t] && Relevant(R, id, v)
      ensures Kept(R, q.ballots[v].log, t, j, v)
    {
      if v == later {
        assert Kept(R, log, t, j, lo);
      } else {
        assert Kept(R, p.ballots[v].log, t, j, v);
      }
    }
  }

  /** What starting an election does to the candidate's record. */
  ghost predicate Candidacy(p: Past, q: Past, id: NodeId, n: NodeState) {
    && q.ballots == p.ballots[n.term + 1 := Ballot(id, n.log)]
    && q.runs == p.runs[n.term + 1 := n.log]
    && q.acks == p.acks && q.tally == {id}
  }

  lemma TimeoutNode(c: Config, s: State, s': State, id: NodeId, q: Past)
    requires Shaped(c, s) && Shaped(c, s') && id in c.servers && NodeOk(c, s, id)
    requires s'.nodes[id] == StartElection(id, s.nodes[id]) && s'.past == s.past[id := q] && PastGrows(s.past[id], q)
    requires s'.reigns == s.reigns && s'.commits == s.commits
    requires Candidacy(s.past[id], q, id, s.nodes[id])
    requires s.nodes[id].term + 1 in s.reigns ==> s.reigns[s.nodes[id].term + 1].leader != id
    ensures NodeOk(c, s', id)
  {
    var n := s.nodes[id];
    TimeoutVotes(c, s.past, s'.past, s.reigns, id, n, q);
    AcksWithBallot(s.reigns, s.past[id], q, id, n.log, n.term, n.term + 1, id);
    JustifiedGrows(s.reigns, s.reigns, s.commits, s.commits, id, n.log, n.commit, n.term, n.term + 1);
  }

  lemma VotesAreOld(c: Config, P: Pasts, R: Reigns, id: NodeId, term: nat, vote: NodeId, u: nat)
    requires id in P && VotesOk(c, P, R, id, term, vote)
    ensures u in P[id].ballots || u in P[id].runs ==> u <= term
  {
    if u in P[id].ballots { assert BallotOk(c, P, R, u, P[id].ballots[u]); }
    if u in P[id].runs { assert RunOk(P, R, id, u); }
  }

  /** A member has never before been a candidate, a voter or a leader in its next term. */
  lemma NextTermIsNew(c: Config, s: State, id: NodeId)
    requires Inv(c, s) && id in c.servers
    ensures var u := s.nodes[id].term + 1;
            u !in s.past[id].ballots && u !in s.past[id].runs && (u in s.reigns ==> s.reigns[u].leader != id)
  {
    var u := s.nodes[id].term + 1;
    assert NodeOk(c, s, id);
    VotesAreOld(c, s.past, s.reigns, id, s.nodes[id].term, s.nodes[id].vote, u);
    assert u in s.reigns ==> ReignOk(c, s.past, s.reigns, u);
  }

  lemma KeepTimeout(c: Config, s: State, id: NodeId)
    requires Inv(c, s) && id in c.servers
    ensures Inv(c, DoTimeout(c, s, id))
    ensures Grows(c, s, DoTimeout(c, s, id), id)
  {
    var s', n := DoTimeout(c, s, id), s.nodes[id];
    var m, q := StartElection(id, n), s'.past[id];
    NextTermIsNew(c, s, id);
    LocalGrows(c, s, s', id, m, q);
    assert NodeOk(c, s, id);
    TimeoutNode(c, s, s', id, q);
    LocalStep(c, s, s', id, m, q);
  }

  lemma GrantVotes(c: Config, P: Pasts, Q: Pasts, R: Reigns, id: NodeId, n: NodeState, q: Past, candidate: NodeId)
    requires id in P && Q == P[id := q] && PastGrows(P[id], q) && n.term !in P[id].ballots && candidate != ""
    requires VotesOk(c, P, R, id, n.term, n.vote) && BallotOk(c, P, R, n.term, Ballot(candidate, n.log))
    requires q == P[id].(ballots := P[id].ballots[n.term := Ballot(candidate, n.log)])
    ensures VotesOk(c, Q, R, id, n.term, candidate)
  {
    forall t | t in q.ballots ensures t <= n.term && BallotOk(c, Q, R, t, q.ballots[t]) {
      if t != n.term { assert BallotOk(c, P, R, t, P[id].ballots[t]); }
      BallotOkGrows(c, P, Q, R, R, id, t, q.ballots[t]);
    }
    forall t | t in q.runs ensures t <= n.term && RunOk(Q, R, id, t) { assert RunOk(P, R, id, t); }
  }

  /** A fresh vote in the current term: nobody it could have elected yet is recorded. */
  lemma GrantNode(c: Config, s: State, s': State, id: NodeId, q: Past, candidate: NodeId)
    requires Shaped(c, s) && Shaped(c, s') && id in c.servers && NodeOk(c, s, id)
    requires s'.nodes[id] == s.nodes[id].(vote := candidate) && s.nodes[id].vote == "" && candidate != ""
    requires q == s.past[id].(ballots := s.past[id].ballots[s.nodes[id].term := Ballot(candidate, s.nodes[id].log)])
    requires s'.past == s.past[id := q] && PastGrows(s.past[id], q)
    requires s'.reigns == s.reigns && s'.commits == s.commits
    requires BallotOk(c, s.past, s.reigns, s.nodes[id].term, Ballot(candidate, s.nodes[id].log))
    requires s.nodes[id].term in s.reigns ==> !Relevant(s.reigns, id, s.nodes[id].term)
    ensures NodeOk(c, s', id)
  {
    var n, R := s.nodes[id], s.reigns;
    GrantVotes(c, s.past, s'.past, R, id, n, q, candidate);
    AcksWithBallot(R, s.past[id], q, id, n.log, n.term, n.term, candidate);
    LeaderOkGrows(c, s.past, s'.past, R, R, id, id, n);
    assert LeaderOk(c, s'.past, R, id, s'.nodes[id]) by {
      if n.role == Leader {
        forall p | p in Peers(c, id) ensures ProgressOk(s'.past, s'.nodes[id], p) { assert ProgressOk(s'.past, n, p); }
      }
    }
  }

  /** What the vote request and the voter's record say together. */
  lemma GrantFacts(c: Config, s: State, id: NodeId, to: NodeId, req: VoteReq)
    requires Inv(c, s) && id in c.servers && to == id && VoteCall(to, req) in s.net
    requires req.term == s.nodes[id].term && Grants(s.nodes[id], req)
    ensures req.candidate in c.servers && id in Peers(c, req.candidate) && req.candidate != ""
    ensures BallotOk(c, s.past, s.reigns, req.term, Ballot(req.candidate, s.nodes[id].log))
    ensures s.nodes[id].vote == "" ==> req.term !in s.past[id].ballots
    ensures s.nodes[id].vote == "" && req.term in s.reigns ==> !Relevant(s.reigns, id, req.term)
    ensures s.nodes[id].vote != "" ==> VotedFor(s.past, id, req.term, req.candidate)
  {
    assert NodeOk(c, s, id);
    assert MessageOk(c, s, VoteCall(to, req));
    if s.nodes[id].vote == "" && req.term in s.reigns {
      assert ReignOk(c, s.past, s.reigns, req.term);
      assert id in s.reigns[req.term].voters ==> VotedFor(s.past, id, req.term, s.reigns[req.term].leader);
    }
  }

  lemma KeepGrant(c: Config, s: State, s': State, id: NodeId, req: VoteReq, q: Past)
    requires Inv(c, s) && id in c.servers && VoteCall(id, req) in s.net
    requires req.term == s.nodes[id].term && Grants(s.nodes[id], req) && s.nodes[id].vote == ""
    requires q == s.past[id].(ballots := s.past[id].ballots[req.term := Ballot(req.candidate, s.nodes[id].log)])
    requires s'.nodes == s.nodes[id := s.nodes[id].(vote := req.candidate)] && s'.past == s.past[id := q]
    requires s'.reigns == s.reigns && s'.commits == s.commits
    requires s'.net == s.net + {VoteReturn(req.candidate, id, req.term, VoteResp(req.term, true))}
    ensures Inv(c, s')
    ensures Grows(c, s, s', id)
  {
    var m := s.nodes[id].(vote := req.candidate);
    GrantFacts(c, s, id, id, req);
    LocalGrows(c, s, s', id, m, q);
    assert NodeOk(c, s, id);
    GrantNode(c, s, s', id, q, req.candidate);
    assert VotedFor(s'.past, id, req.term, req.candidate);
    LocalStep(c, s, s', id, m, q);
  }

  /** A reply that changes no state. */
  lemma KeepReply(c: Config, s: State, s': State, msg: Message, id: NodeId)
    requires Inv(c, s) && id in c.servers
    requires s'.nodes == s.nodes && s'.past == s.past && s'.reigns == s.reigns && s'.commits == s.commits
    requires s'.net == s.net + {msg} && MessageOk(c, s, msg)
    ensures Inv(c, s')
    ensures Grows(c, s, s', id)
  {
    assert s'.nodes == s.nodes[id := s.nodes[id]] && s'.past == s.past[id := s.past[id]];
    LocalGrows(c, s, s', id, s.nodes[id], s.past[id]);
    assert NodeOk(c, s, id);
    VolatileSame(c, s, s'.(net := s.net), id, s.nodes[id]);
    assert NodeOk(c, s', id);
    MessageOkGrows(c, s, s', id, msg);
    LocalStep(c, s, s', id, s.nodes[id], s.past[id]);
  }

  lemma KeepAnswerVote(c: Config, s: State, id: NodeId, msg: Message)
    requires Inv(c, s) && id in c.servers && msg in s.net && msg.VoteCall? && msg.to == id
    requires msg.vreq.term <= s.nodes[id].term
    ensures Inv(c, DoAnswerVote(c, s, id, msg))
    ensures Grows(c, s, DoAnswerVote(c, s, id, msg), id)
  {
    var s', n, req := DoAnswerVote(c, s, id, msg), s.nodes[id], msg.vreq;
    var (m, resp) := OnVoteReq(c, n, req);
    var reply := VoteReturn(req.candidate, id, req.term, resp);
    if resp.granted {
      GrantFacts(c, s, id, id, req);
      if n.vote == "" {
        var q := s.past[id].(ballots := s.past[id].ballots[req.term := Ballot(req.candidate, n.log)]);
        KeepGrant(c, s, s', id, req, q);
      } else {
        assert m == n && s'.nodes == s.nodes[id := n] == s.nodes;
        KeepReply(c, s, s', reply, id);
      }
    } else {
      assert m == n && s'.nodes == s.nodes[id := n] == s.nodes;
      assert MessageOk(c, s, reply) by { assert MessageOk(c, s, msg); }
      KeepReply(c, s, s', reply, id);
    }
  }

  // ---- counting votes ----

  /** The record after the reply of `from` has been consumed and its vote counted. */
  ghost function Counted(p: Past, from: NodeId, sent: nat): Past {
    p.(pending := p.pending - {(from, sent)}, tally := p.tally + {from})
  }

  /** One more vote keeps the tally: a reply is consumed once, so the voter is new. */
  lemma TallyGrows(c: Config, P: Pasts, Q: Pasts, R: Reigns, id: NodeId, n: NodeState, from: NodeId)
    requires id in P && CandidateOk(c, P, R, id, n) && n.role == Candidate
    requires from in Peers(c, id) && (from, n.term) in P[id].pending && VotedFor(P, from, n.term, id)
    requires Q == P[id := Counted(P[id], from, n.term)]
    ensures CandidateOk(c, Q, R, id, n.(votes := n.votes + 1))
  {
    assert from !in P[id].tally;
    var q := Q[id];
    forall p | p in q.tally ensures VotedFor(Q, p, n.term, id) && (p == id || (p, n.term) !in q.pending) {
      assert VotedFor(P, p, n.term, id);
    }
  }

  lemma CountNode(c: Config, s: State, s': State, id: NodeId, from: NodeId)
    requires Shaped(c, s) && Shaped(c, s') && id in c.servers && NodeOk(c, s, id) && s.nodes[id].role == Candidate
    requires s'.nodes[id] == s.nodes[id].(votes := s.nodes[id].votes + 1)
    requires s'.past == s.past[id := Counted(s.past[id], from, s.nodes[id].term)]
    requires s'.reigns == s.reigns && s'.commits == s.commits
    requires from in Peers(c, id) && (from, s.nodes[id].term) in s.past[id].pending
    requires VotedFor(s.past, from, s.nodes[id].term, id)
    ensures NodeOk(c, s', id)
  {
    var n, R := s.nodes[id], s.reigns;
    VotesOkGrows(c, s.past, s'.past, R, R, id, id, n.term, n.vote);
    AcksSame(R, s.past[id], s'.past[id], id, n.log, n.term);
    TallyGrows(c, s.past, s'.past, R, id, n, from);
  }

  ghost predicate AllVotedFor(P: Pasts, voters: set<NodeId>, t: nat, candidate: NodeId) {
    forall p {:trigger VotedFor(P, p, t, candidate)} :: p in voters ==> VotedFor(P, p, t, candidate)
  }

  lemma OneWinner(c: Config, P: Pasts, t: nat, a: NodeId, voters: set<NodeId>, b: NodeId, tally: set<NodeId>)
    requires ConfigOk(c) && voters <= c.servers && tally <= c.servers && |voters| >= c.quorum && |tally| >= c.quorum
    requires AllVotedFor(P, voters, t, a) && AllVotedFor(P, tally, t, b)
    ensures a == b
  {
    var p := QuorumsMeet(c, tally, voters);
    assert VotedFor(P, p, t, a) && VotedFor(P, p, t, b);
  }

  /** Election Safety (Raft paper, section 5.2): a candidate with a majority is its term's first leader. */
  lemma NoRivalLeader(c: Config, s: State, id: NodeId, tally: set<NodeId>)
    requires ConfigOk(c) && Inv(c, s) && id in c.servers && s.nodes[id].role == Candidate
    requires tally <= c.servers && |tally| >= c.quorum && AllVotedFor(s.past, tally, s.nodes[id].term, id)
    ensures s.nodes[id].term !in s.reigns
  {
    var t := s.nodes[id].term;
    assert NodeOk(c, s, id);
    if t in s.reigns {
      assert ReignOk(c, s.past, s.reigns, t);
      OneWinner(c, s.past, t, s.reigns[t].leader, s.reigns[t].voters, id, tally);
    }
  }

  // ---- taking leadership ----

  ghost predicate Elected(c: Config, s: State, s': State, id: NodeId, from: NodeId, m: NodeState, q: Past) {
    && Shaped(c, s) && id in c.servers && s.nodes[id].role == Candidate
    && var n := s.nodes[id];
    && m == Promote(c, id, n.(votes := n.votes + 1))
    && q == Counted(s.past[id], from, n.term).(acks := s.past[id].acks[n.term := LastIndex(m.log)])
    && s'.nodes == s.nodes[id := m] && s'.past == s.past[id := q]
    && s'.reigns == s.reigns[n.term := Reign(id, q.tally, n.log, m.log)]
    && s'.commits == s.commits && s'.net == s.net
    && n.term !in s.reigns && n.term !in s.past[id].acks
  }

  lemma ElectedGrows(c: Config, s: State, s': State, id: NodeId, from: NodeId, m: NodeState, q: Past)
    requires Elected(c, s, s', id, from, m, q)
    ensures Grows(c, s, s', id) && s'.nodes[id] == m && s'.past[id] == q
  {
    assert s'.nodes.Keys == c.servers && s'.past.Keys == c.servers;
    assert s'.nodes == s.nodes[id := s'.nodes[id]];
    assert s'.past == s.past[id := s'.past[id]];
  }

  /** A log extended by one entry of term t, when it becomes t's leader log or already was its prefix. */
  lemma ExtendLog(R: Reigns, S: Reigns, id: NodeId, log: seq<LogEntry>, e: LogEntry, t: nat)
    requires ReignsGrow(R, S, id) && LogOk(R, log, t) && t >= 1
    requires e.term == t && e.index == |log|
    requires t in S && S[t].log == log + [e]
    ensures LogOk(S, log + [e], t)
  {
    var log' := log + [e];
    forall i | 0 <= i < |log'| ensures EntryOk(log', i) { assert i < |log| ==> EntryOk(log, i); }
    forall i, j | 0 <= i <= j < |log'| ensures TermsRise(log', i, j) {
      if j < |log| { assert TermsRise(log, i, j); }
      else if i < |log| { assert TermsRise(log, i, LastIndex(log)); }
    }
    LogOkGrows(R, S, id, log, t);
    forall i | 1 <= i < |log'| ensures EntryGrounded(S, log', i) {
      if i < |log| {
        assert EntryGrounded(S, log, i);
        HasPrefix(S[log[i].term].log, log, log', i);
        assert Has(log', S[log[i].term].log, i) by { assert Has(S[log[i].term].log, log', i); }
      }
    }
  }

  /** A leader's own acknowledgement of its extended log. */
  lemma ExtendAcks(R: Reigns, S: Reigns, p: Past, q: Past, id: NodeId, log: seq<LogEntry>, e: LogEntry, t: nat)
    requires ReignsGrow(R, S, id) && AcksOk(R, p, id, log, t) && t >= 1
    requires t in S && S[t].log == log + [e] && q.acks == p.acks[t := |log|] && q.ballots == p.ballots
    requires forall v :: v in q.ballots ==> v <= t
    ensures AcksOk(S, q, id, log + [e], t)
  {
    AcksOkGrows(R, S, id, p, id, log, t);
    var log', hi := log + [e], t + 1;
    forall u, j | u in q.acks && 1 <= j <= q.acks[u] ensures Kept(S, log', u, j, hi) {
      if u != t {
        assert Kept(S, log, u, j, hi);
        if Has(log, S[u].log, j) {
          HasPrefix(S[u].log, log, log', j);
          assert Has(log', S[u].log, j) by { assert Has(S[u].log, log', j); }
        }
      }
    }
    forall v, u, j | v in q.ballots && u in q.acks && u < v && 1 <= j <= q.acks[u] && Relevant(S, id, v)
      ensures Kept(S, q.ballots[v].log, u, j, v)
    {
      assert Kept(S, p.ballots[v].log, u, j, v);
    }
  }

  lemma ElectedNode(c: Config, s: State, s': State, id: NodeId, from: NodeId, m: NodeState, q: Past)
    requires Elected(c, s, s', id, from, m, q) && Grows(c, s, s', id) && s'.nodes[id] == m && s'.past[id] == q
    requires NodeOk(c, s, id)
    ensures NodeOk(c, s', id)
  {
    var n, R, S := s.nodes[id], s.reigns, s'.reigns;
    var e := LogEntry(|n.log|, n.term, Noop);
    assert RunOk(s.past, R, id, n.term);
    assert m.log == n.log + [e];
    VotesOkGrows(c, s.past, s'.past, R, S, id, id, n.term, n.vote);
    forall v | v in q.ballots ensures v <= n.term { VotesAreOld(c, s.past, R, id, n.term, n.vote, v); }
    ExtendLog(R, S, id, n.log, e, n.term);
    ExtendAcks(R, S, s.past[id], q, id, n.log, e, n.term);
    JustifiedGrows(R, S, s.commits, s'.commits, id, n.log, n.commit, n.term, n.term);
    JustifiedLonger(S, s'.commits, n.log, m.log, n.commit, n.term);
  }

  lemma ElectedReign(c: Config, s: State, s': State, id: NodeId, from: NodeId, m: NodeState, q: Past)
    requires Elected(c, s, s', id, from, m, q) && NodeOk(c, s, id)
    requires from in Peers(c, id) && VotedFor(s.past, from, s.nodes[id].term, id)
    requires m.votes >= c.quorum && m.votes == |q.tally|
    ensures ReignOk(c, s'.past, s'.reigns, s.nodes[id].term)
  {
    var n := s.nodes[id];
    var e := LogEntry(|n.log|, n.term, Noop);
    assert RunOk(s.past, s.reigns, id, n.term);
    assert m.log == n.log + [e];
    forall i | 0 <= i < |m.log| ensures EntryOk(m.log, i) { assert i < |n.log| ==> EntryOk(n.log, i); }
    forall i, j | 0 <= i <= j < |m.log| ensures TermsRise(m.log, i, j) {
      if j < |n.log| { assert TermsRise(n.log, i, j); }
      else if i < |n.log| { assert TermsRise(n.log, i, LastIndex(n.log)); }
    }
    forall p | p in q.tally ensures VotedFor(s'.past, p, n.term, id) {
      if p != from { assert VotedFor(s.past, p, n.term, id); }
    }
  }

  lemma KeepElected(c: Config, s: State, s': State, id: NodeId, from: NodeId, m: NodeState, q: Past)
    requires Inv(c, s) && Elected(c, s, s', id, from, m, q) && NodeOk(c, s, id)
    requires from in Peers(c, id) && VotedFor(s.past, from, s.nodes[id].term, id)
    requires m.votes >= c.quorum && m.votes == |q.tally|
    ensures Inv(c, s')
    ensures Grows(c, s, s', id)
  {
    ElectedGrows(c, s, s', id, from, m, q);
    ElectedNode(c, s, s', id, from, m, q);
    ElectedReign(c, s, s', id, from, m, q);
    Frame(c, s, s', id);
  }

  /** The facts behind a vote that is counted. */
  lemma CountFacts(c: Config, s: State, id: NodeId, msg: Message)
    requires Inv(c, s) && id in c.servers && msg in s.net && msg.VoteReturn? && msg.to == id
    requires msg.vresp.granted && msg.sent == s.nodes[id].term && s.nodes[id].role == Candidate
    requires (msg.from, msg.sent) in s.past[id].pending
    ensures msg.from in Peers(c, id) && VotedFor(s.past, msg.from, msg.sent, id)
    ensures var tally := s.past[id].tally + {msg.from};
            |tally| == s.nodes[id].votes + 1 && tally <= c.servers && AllVotedFor(s.past, tally, msg.sent, id)
  {
    var n := s.nodes[id];
    assert NodeOk(c, s, id);
    assert MessageOk(c, s, msg);
    assert msg.from !in s.past[id].tally;
  }

  lemma KeepCounted(c: Config, s: State, id: NodeId, msg: Message)
    requires ConfigOk(c) && Inv(c, s) && id in c.servers && msg in s.net && msg.VoteReturn? && msg.to == id
    requires msg.vresp.granted && msg.sent == s.nodes[id].term && s.nodes[id].role == Candidate
    requires (msg.from, msg.sent) in s.past[id].pending && msg.vresp.term <= s.nodes[id].term
    ensures Inv(c, DoCountVote(c, s, id, msg))
    ensures Grows(c, s, DoCountVote(c, s, id, msg), id)
  {
    var s', n := DoCountVote(c, s, id, msg), s.nodes[id];
    var m, q := s'.nodes[id], s'.past[id];
    CountFacts(c, s, id, msg);
    assert NodeOk(c, s, id);
    if n.votes + 1 >= c.quorum {
      NoRivalLeader(c, s, id, q.tally);
      KeepElected(c, s, s', id, msg.from, m, q);
    } else {
      LocalGrows(c, s, s', id, m, q);
      CountNode(c, s, s', id, msg.from);
      LocalStep(c, s, s', id, m, q);
    }
  }

  lemma KeepCountVote(c: Config, s: State, id: NodeId, msg: Message)
    requires ConfigOk(c) && Inv(c, s) && id in c.servers && msg in s.net && msg.VoteReturn? && msg.to == id
    requires (msg.from, msg.sent) in s.past[id].pending && msg.vresp.term <= s.nodes[id].term
    ensures Inv(c, DoCountVote(c, s, id, msg))
    ensures Grows(c, s, DoCountVote(c, s, id, msg), id)
  {
    var s', n := DoCountVote(c, s, id, msg), s.nodes[id];
    if n.role == Candidate && msg.sent == n.term && msg.vresp.granted {
      KeepCounted(c, s, id, msg);
    } else {
      assert s'.nodes == s.nodes[id := n] == s.nodes;
      assert s' == DoLoseVote(c, s, id, msg.from, msg.sent);
      KeepLoseVote(c, s, id, msg.from, msg.sent);
    }
  }
}
