/**
  Small sequences of cluster steps, for building runs: a campaign, a vote from request to
  count, an election carried by a set of voters, and an AppendEntries round trip.
 */
module ClusterMoves {
  import opened RaftNode
  import opened Cluster
  import opened Handlers

  /** Steps lead from s to r. */
  ghost predicate Moves(c: Config, s: State, r: State) {
    Shaped(c, s) && Shaped(c, r) && Leads(c, s, r) && s.net <= r.net
  }

  lemma MovesOn(c: Config, s: State, t: State, u: State)
    requires Moves(c, s, t) && Moves(c, t, u)
    ensures Moves(c, s, u)
  {
    LeadsOn(c, s, t, u);
  }

  /** The voter once it has adopted the candidate's term and granted its vote. */
  function Voter(n: NodeState, term: nat, candidate: NodeId): NodeState {
    StepDown(n, term, "").(vote := candidate)
  }

  lemma Observes(c: Config, s: State, id: NodeId, msg: Message) returns (r: State)
    requires Shaped(c, s) && id in c.servers && msg in s.net && msg.to == id && TermOf(msg) > s.nodes[id].term
    ensures Moves(c, s, r) && r.past == s.past && r.nodes == s.nodes[id := StepDown(s.nodes[id], TermOf(msg), "")]
  {
    r := Do(c, s, ObserveTerm(id, msg));
    LeadsOneStep(c, s, ObserveTerm(id, msg));
  }

  lemma Votes(c: Config, s: State, v: NodeId, req: VoteReq) returns (r: State)
    requires Shaped(c, s) && v in c.servers && VoteCall(v, req) in s.net && req.term == s.nodes[v].term
    requires req.version == PROTOCOL_VERSION && req.clusterId == c.clusterId && Grants(s.nodes[v], req)
    ensures Moves(c, s, r) && r.nodes == s.nodes[v := s.nodes[v].(vote := req.candidate)]
    ensures VoteReturn(req.candidate, v, req.term, VoteResp(req.term, true)) in r.net
    ensures forall p :: p in c.servers ==> r.past[p].pending == s.past[p].pending
  {
    r := Do(c, s, AnswerVote(v, VoteCall(v, req)));
    LeadsOneStep(c, s, AnswerVote(v, VoteCall(v, req)));
  }

  lemma Counts(c: Config, s: State, id: NodeId, v: NodeId) returns (r: State)
    requires Shaped(c, s) && id in c.servers && s.nodes[id].role == Candidate
    requires VoteReturn(id, v, s.nodes[id].term, VoteResp(s.nodes[id].term, true)) in s.net
    requires (v, s.nodes[id].term) in s.past[id].pending
    ensures var n := s.nodes[id].(votes := s.nodes[id].votes + 1);
            r.nodes == s.nodes[id := if n.votes >= c.quorum then Promote(c, id, n) else n]
    ensures Moves(c, s, r) && r.past[id].pending == s.past[id].pending - {(v, s.nodes[id].term)}
  {
    var msg := VoteReturn(id, v, s.nodes[id].term, VoteResp(s.nodes[id].term, true));
    r := Do(c, s, CountVote(id, msg));
    LeadsOneStep(c, s, CountVote(id, msg));
  }

  /** One vote from request to count. */
  lemma GainsVote(c: Config, s: State, id: NodeId, v: NodeId) returns (r: State)
    requires Shaped(c, s) && id in c.servers && v in c.servers && v != id && s.nodes[id].role == Candidate
    requires VoteCall(v, VoteReqOf(c, id, s.nodes[id])) in s.net
    requires (v, s.nodes[id].term) in s.past[id].pending
    requires s.nodes[v].term < s.nodes[id].term
    requires UpToDate(LastTerm(s.nodes[id].log), LastIndex(s.nodes[id].log), s.nodes[v].log)
    ensures var n := s.nodes[id].(votes := s.nodes[id].votes + 1);
            r.nodes == s.nodes[v := Voter(s.nodes[v], n.term, id)]
                              [id := if n.votes >= c.quorum then Promote(c, id, n) else n]
    ensures Moves(c, s, r) && r.past[id].pending == s.past[id].pending - {(v, s.nodes[id].term)}
  {
    var req := VoteReqOf(c, id, s.nodes[id]);
    var t := Observes(c, s, v, VoteCall(v, req));
    var u := Votes(c, t, v, req);
    r := Counts(c, u, id, v);
    MovesOn(c, s, t, u);
    MovesOn(c, s, u, r);
  }

  /** A vote request is on its way, and its reply is awaited. */
  ghost predicate Asks(c: Config, s: State, id: NodeId, v: NodeId) {
    && id in s.nodes && id in s.past
    && VoteCall(v, VoteReqOf(c, id, s.nodes[id])) in s.net
    && (v, s.nodes[id].term) in s.past[id].pending
  }

  /** The voter is of an earlier term, with a log that is no more current. */
  ghost predicate AsksFor(c: Config, s: State, id: NodeId, v: NodeId) {
    && Asks(c, s, id, v) && v in s.nodes && s.nodes[v].term < s.nodes[id].term
    && UpToDate(LastTerm(s.nodes[id].log), LastIndex(s.nodes[id].log), s.nodes[v].log)
  }

  lemma Campaigns(c: Config, s: State, id: NodeId) returns (r: State)
    requires Shaped(c, s) && id in c.servers && s.nodes[id].role != Leader
    ensures Moves(c, s, r) && r.nodes == s.nodes[id := StartElection(id, s.nodes[id])]
    ensures forall p {:trigger Asks(c, r, id, p)} :: p in Peers(c, id) ==> Asks(c, r, id, p)
  {
    r := Do(c, s, Timeout(id));
    LeadsOneStep(c, s, Timeout(id));
  }

  /** The candidate's voters have voted, the candidate leads, and nobody else has moved. */
  ghost predicate Carried(c: Config, s: State, id: NodeId, voters: set<NodeId>, leader: NodeState, r: State)
    requires Shaped(c, s) && Shaped(c, r) && id in c.servers
  {
    && r.nodes[id] == leader
    && forall p {:trigger r.nodes[p]} :: p in c.servers && p != id ==>
         r.nodes[p] == if p in voters then Voter(s.nodes[p], s.nodes[id].term, id) else s.nodes[p]
  }

  /** Voters of an earlier term carry a candidate, one after the other. */
  lemma {:induction false} GainsVotes(c: Config, s: State, id: NodeId, voters: set<NodeId>) returns (r: State)
    requires Shaped(c, s) && id in c.servers && voters <= Peers(c, id) && voters != {}
    requires s.nodes[id].role == Candidate && s.nodes[id].votes + |voters| == c.quorum
    requires forall v {:trigger AsksFor(c, s, id, v)} :: v in voters ==> AsksFor(c, s, id, v)
    ensures Moves(c, s, r)
    ensures Carried(c, s, id, voters, Promote(c, id, s.nodes[id].(votes := c.quorum)), r)
    decreases voters
  {
    var v :| v in voters;
    assert AsksFor(c, s, id, v);
    var t := GainsVote(c, s, id, v);
    if voters == {v} {
      r := t;
    } else {
      var others := voters - {v};
      assert |others| == |voters| - 1 && others != {};
      forall u | u in others ensures AsksFor(c, t, id, u) { StillAsks(c, s, id, v, t, u); }
      r := GainsVotes(c, t, id, others);
      MovesOn(c, s, t, r);
      OneMoreCarried(c, s, id, voters, v, t, s.nodes[id].votes + 1, r);
    }
  }

  lemma OneMoreCarried(
    c: Config, s: State, id: NodeId, voters: set<NodeId>, v: NodeId, t: State, votes: nat, r: State)
    requires Shaped(c, s) && Shaped(c, t) && Shaped(c, r) && id in c.servers && v in voters && v != id && v in c.servers
    requires Carried(c, s, id, {v}, s.nodes[id].(votes := votes), t)
    requires Carried(c, t, id, voters - {v}, Promote(c, id, t.nodes[id].(votes := c.quorum)), r)
    ensures Carried(c, s, id, voters, Promote(c, id, s.nodes[id].(votes := c.quorum)), r)
  {
  }

  lemma StillAsks(c: Config, s: State, id: NodeId, v: NodeId, t: State, u: NodeId)
    requires AsksFor(c, s, id, u) && u != v && u != id && v in s.nodes && s.net <= t.net && id in t.past
    requires id in t.nodes && u in t.nodes && t.nodes[u] == s.nodes[u]
    requires t.nodes[id] == s.nodes[id].(votes := s.nodes[id].votes + 1)
    requires t.past[id].pending == s.past[id].pending - {(v, s.nodes[id].term)}
    ensures AsksFor(c, t, id, u)
  {
    assert VoteReqOf(c, id, t.nodes[id]) == VoteReqOf(c, id, s.nodes[id]);
  }

  /** The member once it has campaigned, gained a majority and taken office. */
  function Elected(c: Config, id: NodeId, n: NodeState): NodeState {
    Promote(c, id, StartElection(id, n).(votes := c.quorum))
  }

  /** The voter may be carried along: of no later term, and with a log that is no more current. */
  ghost predicate Willing(s: State, id: NodeId, v: NodeId) {
    && id in s.nodes && v in s.nodes && s.nodes[v].term <= s.nodes[id].term
    && UpToDate(LastTerm(s.nodes[id].log), LastIndex(s.nodes[id].log), s.nodes[v].log)
  }

  /** The member leads its next term, its voters have followed, and nobody else has moved. */
  ghost predicate ElectedFrom(c: Config, s: State, id: NodeId, voters: set<NodeId>, r: State)
    requires Shaped(c, s) && Shaped(c, r) && id in c.servers
  {
    && r.nodes[id] == Elected(c, id, s.nodes[id])
    && forall p {:trigger r.nodes[p]} :: p in c.servers && p != id ==>
         r.nodes[p] == if p in voters then Voter(s.nodes[p], s.nodes[id].term + 1, id) else s.nodes[p]
  }

  /** A campaign that the voters carry; q is asked too. */
  lemma IsElected(c: Config, s: State, id: NodeId, voters: set<NodeId>, q: NodeId) returns (r: State)
    requires Shaped(c, s) && id in c.servers && voters <= Peers(c, id) && voters != {} && 1 + |voters| == c.quorum
    requires s.nodes[id].role != Leader && q in Peers(c, id)
    requires forall v {:trigger Willing(s, id, v)} :: v in voters ==> Willing(s, id, v)
    ensures Moves(c, s, r) && ElectedFrom(c, s, id, voters, r)
    ensures VoteCall(q, VoteReqOf(c, id, StartElection(id, s.nodes[id]))) in r.net
  {
    var t := Campaigns(c, s, id);
    assert Asks(c, t, id, q);
    forall v | v in voters ensures AsksFor(c, t, id, v) {
      assert Asks(c, t, id, v) && Willing(s, id, v);
      WillingIsAsked(c, s, id, t, v);
    }
    r := GainsVotes(c, t, id, voters);
    MovesOn(c, s, t, r);
    CarriedFrom(c, s, id, t, voters, r);
  }

  lemma CarriedFrom(c: Config, s: State, id: NodeId, t: State, voters: set<NodeId>, r: State)
    requires Shaped(c, s) && Shaped(c, t) && Shaped(c, r) && id in c.servers
    requires t.nodes == s.nodes[id := StartElection(id, s.nodes[id])]
    requires Carried(c, t, id, voters, Promote(c, id, t.nodes[id].(votes := c.quorum)), r)
    ensures ElectedFrom(c, s, id, voters, r)
  {
  }

  lemma WillingIsAsked(c: Config, s: State, id: NodeId, t: State, v: NodeId)
    requires Asks(c, t, id, v) && Willing(s, id, v) && v != id
    requires t.nodes == s.nodes[id := StartElection(id, s.nodes[id])]
    ensures AsksFor(c, t, id, v)
  {
  }

  lemma Sends(c: Config, s: State, id: NodeId, p: NodeId) returns (r: State)
    requires Shaped(c, s) && id in c.servers && s.nodes[id].role == Leader && p in Peers(c, id)
    ensures Moves(c, s, r) && r.nodes == s.nodes && r.past == s.past
    ensures AppendCall(p, AppendReqOf(c, id, s.nodes[id], p)) in r.net
  {
    r := Do(c, s, Send(id, p));
    LeadsOneStep(c, s, Send(id, p));
  }

  lemma Repairs(c: Config, s: State, p: NodeId, req: AppendReq) returns (r: State)
    requires Shaped(c, s) && p in c.servers && AppendCall(p, req) in s.net && req.term == s.nodes[p].term
    requires req.version == PROTOCOL_VERSION && req.clusterId == c.clusterId
    ensures Moves(c, s, r) && r.nodes == s.nodes[p := AcceptAppend(s.nodes[p], req).0]
    ensures AppendReturn(req.leader, p, req.term, AcceptAppend(s.nodes[p], req).1) in r.net
  {
    r := Do(c, s, AnswerAppend(p, AppendCall(p, req)));
    LeadsOneStep(c, s, AnswerAppend(p, AppendCall(p, req)));
  }

  lemma Records(c: Config, s: State, id: NodeId, p: NodeId, resp: AppendResp) returns (r: State)
    requires Shaped(c, s) && id in c.servers && resp.term <= s.nodes[id].term
    requires AppendReturn(id, p, s.nodes[id].term, resp) in s.net
    ensures Moves(c, s, r) && r.nodes == s.nodes[id := OnAppendResp(s.nodes[id], p, s.nodes[id].term, resp)]
  {
    var msg := AppendReturn(id, p, s.nodes[id].term, resp);
    r := Do(c, s, RecordAppend(id, msg));
    LeadsOneStep(c, s, RecordAppend(id, msg));
  }

  /** One AppendEntries round trip between a leader and a follower of its term. */
  lemma Exchanges(c: Config, s: State, id: NodeId, p: NodeId) returns (r: State)
    requires Shaped(c, s) && id in c.servers && p in Peers(c, id)
    requires s.nodes[id].role == Leader && s.nodes[p].term == s.nodes[id].term
    ensures var n := s.nodes[id];
            var (m, resp) := AcceptAppend(s.nodes[p], AppendReqOf(c, id, n, p));
            r.nodes == s.nodes[p := m][id := OnAppendResp(n, p, n.term, resp)]
    ensures Moves(c, s, r)
  {
    var req := AppendReqOf(c, id, s.nodes[id], p);
    var t := Sends(c, s, id, p);
    var u := Repairs(c, t, p, req);
    r := Records(c, u, id, p, AcceptAppend(s.nodes[p], req).1);
    MovesOn(c, s, t, u);
    MovesOn(c, s, u, r);
  }
}
