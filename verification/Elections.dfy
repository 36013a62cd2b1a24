/**
  Any majority can elect.  Logs are totally preordered by how current they are, so among
  the members of a majority there is one that the others may vote for; from every
  reachable state it comes to lead by messages among them alone.  Whom a member takes to
  lead was elected in its term.
 */
module Elections {
  import opened Models
  import opened RaftNode
  import opened Cluster
  import opened ClusterInvariant
  import opened ClusterSteps
  import opened ClusterSafety
  import opened Handlers
  import opened ClusterMoves
  import opened Events

  // ---- which log is more current ----

  predicate AsCurrent(a: seq<LogEntry>, b: seq<LogEntry>) { UpToDate(LastTerm(a), LastIndex(a), b) }

  /** Of two logs one is as current as the other; both are, exactly when they end in the same
      term at the same index. */
  lemma CurrencyIsTotal(a: seq<LogEntry>, b: seq<LogEntry>)
    ensures AsCurrent(a, b) || AsCurrent(b, a)
    ensures AsCurrent(a, b) && AsCurrent(b, a) <==> LastTerm(a) == LastTerm(b) && LastIndex(a) == LastIndex(b)
  {
  }

  lemma CurrencyIsTransitive(a: seq<LogEntry>, b: seq<LogEntry>, d: seq<LogEntry>)
    requires AsCurrent(a, b) && AsCurrent(b, d)
    ensures AsCurrent(a, d)
  {
  }

  /** A log is as current as all its prefixes, and appending makes it more current. */
  lemma LongerIsAsCurrent(a: seq<LogEntry>, b: seq<LogEntry>)
    requires WellFormed(a) && 1 <= |b| && b <= a
    ensures AsCurrent(a, b) && (b < a ==> !AsCurrent(b, a))
  {
    assert TermsRise(a, |b| - 1, |a| - 1);
  }

  ghost predicate Foremost(s: State, group: set<NodeId>, id: NodeId) {
    && id in group && group <= s.nodes.Keys
    && forall m {:trigger s.nodes[m]} :: m in group ==> AsCurrent(s.nodes[id].log, s.nodes[m].log)
  }

  lemma {:induction false} SomeForemost(s: State, group: set<NodeId>) returns (id: NodeId)
    requires group != {} && group <= s.nodes.Keys
    ensures Foremost(s, group, id)
    decreases group
  {
    var m :| m in group;
    id := m;
    CurrencyIsTotal(s.nodes[m].log, s.nodes[m].log);
    var others := group - {m};
    if others == {} {
      assert group == {m};
    } else {
      var best := SomeForemost(s, others);
      var x, y := s.nodes[best].log, s.nodes[m].log;
      CurrencyIsTotal(x, y);
      id := if AsCurrent(x, y) then best else m;
      forall k | k in group ensures AsCurrent(s.nodes[id].log, s.nodes[k].log) {
        if k != m && id == m { CurrencyIsTransitive(y, x, s.nodes[k].log); }
      }
    }
  }

  // ---- until the term is high enough ----

  ghost predicate NoLater(s: State, group: set<NodeId>, term: nat)
    requires group <= s.nodes.Keys
  {
    forall m {:trigger s.nodes[m]} :: m in group ==> s.nodes[m].term <= term
  }

  lemma {:induction false} SomeTerm(s: State, group: set<NodeId>) returns (term: nat)
    requires group <= s.nodes.Keys
    ensures NoLater(s, group, term)
    decreases group
  {
    if group == {} {
      term := 0;
    } else {
      var m :| m in group;
      var most := SomeTerm(s, group - {m});
      term := if most >= s.nodes[m].term then most else s.nodes[m].term;
    }
  }

  /** The election timer fires: a campaign, and a vote asked of every peer. */
  lemma Fires(c: Config, group: set<NodeId>, s: State, id: NodeId) returns (r: State)
    requires Reached(c, s) && Shaped(c, s) && id in group && id in c.servers && s.nodes[id].role != Leader
    ensures Goes(c, group, s, r) && r.nodes == s.nodes[id := StartElection(id, s.nodes[id])]
    ensures forall p {:trigger Asks(c, r, id, p)} :: p in Peers(c, id) ==> Asks(c, r, id, p)
  {
    ReachedInv(c, s);
    r := Handles(c, group, s, Timer(id));
    forall p | p in Peers(c, id) ensures Asks(c, r, id, p) {
      assert VoteCall(p, VoteReqOf(c, id, r.nodes[id])) in OnTimeout(c, id, s.nodes[id]).sent;
    }
  }

  /** A member whose timer fires again and again reaches any term, with the log it has. */
  lemma {:induction false} Reaches(c: Config, group: set<NodeId>, s: State, id: NodeId, term: nat) returns (r: State)
    requires Reached(c, s) && Shaped(c, s) && id in group && id in c.servers && s.nodes[id].role != Leader
    ensures Goes(c, group, s, r) && r.nodes == s.nodes[id := r.nodes[id]]
    ensures r.nodes[id].role != Leader && r.nodes[id].log == s.nodes[id].log && r.nodes[id].term >= term
    decreases if s.nodes[id].term < term then term - s.nodes[id].term else 0
  {
    if s.nodes[id].term >= term {
      GoesNowhere(c, group, s);
      r := s;
    } else {
      var t := Fires(c, group, s, id);
      r := Reaches(c, group, t, id, term);
      GoesOn(c, group, s, t, r);
      Overwrites(s.nodes, id, t.nodes[id], r.nodes[id]);
    }
  }

  // ---- a leader that is behind ----

  lemma {:induction false} Listing(ps: set<NodeId>) returns (peers: seq<NodeId>)
    ensures (forall p :: p in peers <==> p in ps) && forall i, j :: 0 <= i < j < |peers| ==> peers[i] != peers[j]
    decreases ps
  {
    if ps == {} {
      peers := [];
    } else {
      var p :| p in ps;
      var rest := Listing(ps - {p});
      peers := [p] + rest;
    }
  }

  /** A leader whose heartbeat reaches a member of a later term steps down. */
  lemma StepsDown(c: Config, group: set<NodeId>, s: State, id: NodeId, m: NodeId) returns (r: State)
    requires Reached(c, s) && Shaped(c, s) && {id, m} <= group && group <= c.servers
    requires s.nodes[id].role == Leader && s.nodes[m].term > s.nodes[id].term
    ensures Goes(c, group, s, r) && r.nodes == s.nodes[id := StepDown(s.nodes[id], s.nodes[m].term, "")]
  {
    ReachedInv(c, s);
    var n := s.nodes[id];
    var req := AppendReqOf(c, id, n, m);
    var t := Handles(c, group, s, Heartbeat(id));
    assert AppendCall(m, req) in t.net && t.nodes == s.nodes;
    var u := Handles(c, group, t, AppendAsked(m, req));
    var resp := AppendResp(s.nodes[m].term, false, 0, 0, 0);
    assert AppendReturn(id, m, n.term, resp) in u.net && u.nodes == s.nodes;
    var peers := Listing(Peers(c, id));
    r := Handles(c, group, u, AppendAnswered(id, m, n.term, resp, peers));
    GoesOn(c, group, s, t, u);
    GoesOn(c, group, s, u, r);
  }

  // ---- votes ----

  lemma VoteIsGranted(c: Config, v: NodeId, n: NodeState, req: VoteReq)
    requires Genuine(c, req.version, req.clusterId) && n.term < req.term && UpToDate(req.lastTerm, req.lastIndex, n.log)
    ensures OnVoteCall(c, v, n, req).node == Voter(n, req.term, req.candidate)
    ensures VoteReturn(req.candidate, v, req.term, VoteResp(req.term, true)) in OnVoteCall(c, v, n, req).sent
  {
  }

  /** A vote request that is delivered again gets the same answer again, and changes nothing. */
  lemma VoteIsRepeated(c: Config, n: NodeState, req: VoteReq)
    ensures OnVoteReq(c, OnVoteReq(c, n, req).0, req) == OnVoteReq(c, n, req)
  {
  }

  lemma CastsVote(c: Config, group: set<NodeId>, s: State, id: NodeId, v: NodeId) returns (r: State)
    requires Reached(c, s) && Shaped(c, s) && v in group && {id, v} <= c.servers && AsksFor(c, s, id, v)
    ensures Goes(c, group, s, r) && r.nodes == s.nodes[v := Voter(s.nodes[v], s.nodes[id].term, id)]
    ensures VoteReturn(id, v, s.nodes[id].term, VoteResp(s.nodes[id].term, true)) in r.net
    ensures r.past[id].pending == s.past[id].pending
  {
    ReachedInv(c, s);
    var req := VoteReqOf(c, id, s.nodes[id]);
    r := Handles(c, group, s, VoteAsked(v, req));
    VoteIsGranted(c, v, s.nodes[v], req);
  }

  lemma CountsVote(c: Config, group: set<NodeId>, s: State, id: NodeId, v: NodeId) returns (r: State)
    requires Reached(c, s) && Shaped(c, s) && id in group && id in c.servers && s.nodes[id].role == Candidate
    requires VoteReturn(id, v, s.nodes[id].term, VoteResp(s.nodes[id].term, true)) in s.net
    requires (v, s.nodes[id].term) in s.past[id].pending
    ensures Goes(c, group, s, r) && r.nodes == s.nodes[id := Count(c, id, s.nodes[id]).node]
    ensures r.nodes[id].role == Candidate ==>
              r.past[id].pending == s.past[id].pending - {(v, s.nodes[id].term)}
  {
    ReachedInv(c, s);
    r := Handles(c, group, s, VoteAnswered(id, v, s.nodes[id].term, VoteResp(s.nodes[id].term, true)));
  }

  /** One vote, from the request to the count, by the handlers. */
  lemma WinsVote(c: Config, group: set<NodeId>, s: State, id: NodeId, v: NodeId) returns (r: State)
    requires Reached(c, s) && Shaped(c, s) && {id, v} <= group && group <= c.servers && v != id
    requires s.nodes[id].role == Candidate && AsksFor(c, s, id, v)
    ensures Goes(c, group, s, r)
    ensures r.nodes == s.nodes[v := Voter(s.nodes[v], s.nodes[id].term, id)][id := Count(c, id, s.nodes[id]).node]
    ensures r.nodes[id].role == Candidate ==>
              r.past[id].pending == s.past[id].pending - {(v, s.nodes[id].term)}
  {
    var t := CastsVote(c, group, s, id, v);
    assert t.nodes[id] == s.nodes[id];
    r := CountsVote(c, group, t, id, v);
    GoesOn(c, group, s, t, r);
  }

  ghost predicate AllAsked(c: Config, s: State, id: NodeId, voters: set<NodeId>) {
    forall v {:trigger AsksFor(c, s, id, v)} :: v in voters ==> AsksFor(c, s, id, v)
  }

  lemma StillAllAsked(c: Config, s: State, id: NodeId, voters: set<NodeId>, v: NodeId, t: State)
    requires Shaped(c, s) && Shaped(c, t) && AllAsked(c, s, id, voters) && s.net <= t.net
    requires v in voters && id !in voters && voters <= c.servers && id in c.servers
    requires t.nodes == s.nodes[v := t.nodes[v]][id := s.nodes[id].(votes := s.nodes[id].votes + 1)]
    requires t.past[id].pending == s.past[id].pending - {(v, s.nodes[id].term)}
    ensures AllAsked(c, t, id, voters - {v})
  {
    forall u | u in voters - {v} ensures AsksFor(c, t, id, u) {
      assert AsksFor(c, s, id, u);
      StillAsks(c, s, id, v, t, u);
    }
  }

  lemma WinsOneOf(c: Config, group: set<NodeId>, s: State, id: NodeId, voters: set<NodeId>, v: NodeId)
    returns (r: State)
    requires Reached(c, s) && Shaped(c, s) && id in group && group <= c.servers && voters <= group - {id} && v in voters
    requires s.nodes[id].role == Candidate && s.nodes[id].votes + 1 < c.quorum && AllAsked(c, s, id, voters)
    ensures Goes(c, group, s, r) && AllAsked(c, r, id, voters - {v})
    ensures Carried(c, s, id, {v}, s.nodes[id].(votes := s.nodes[id].votes + 1), r)
  {
    assert AsksFor(c, s, id, v);
    r := WinsVote(c, group, s, id, v);
    StillAllAsked(c, s, id, voters, v, r);
  }

  lemma WinsLast(c: Config, group: set<NodeId>, s: State, id: NodeId, v: NodeId) returns (r: State)
    requires Reached(c, s) && Shaped(c, s) && {id, v} <= group && group <= c.servers && v != id
    requires s.nodes[id].role == Candidate && s.nodes[id].votes + 1 == c.quorum && AsksFor(c, s, id, v)
    ensures Goes(c, group, s, r)
    ensures Carried(c, s, id, {v}, Promote(c, id, s.nodes[id].(votes := c.quorum)), r)
  {
    r := WinsVote(c, group, s, id, v);
  }

  /** As many voters as a majority lacks make the candidate the leader. */
  lemma {:induction false} WinsVotes(c: Config, group: set<NodeId>, s: State, id: NodeId, voters: set<NodeId>)
    returns (r: State)
    requires Reached(c, s) && Shaped(c, s) && id in group && group <= c.servers
    requires voters <= group - {id} && voters != {}
    requires s.nodes[id].role == Candidate && s.nodes[id].votes + |voters| == c.quorum && AllAsked(c, s, id, voters)
    ensures Goes(c, group, s, r)
    ensures Carried(c, s, id, voters, Promote(c, id, s.nodes[id].(votes := c.quorum)), r)
    decreases voters
  {
    var v :| v in voters;
    if voters == {v} {
      assert AsksFor(c, s, id, v);
      r := WinsLast(c, group, s, id, v);
    } else {
      var others := voters - {v};
      assert |others| == |voters| - 1 && others != {};
      var t := WinsOneOf(c, group, s, id, voters, v);
      r := WinsVotes(c, group, t, id, others);
      GoesOn(c, group, s, t, r);
      OneMoreCarried(c, s, id, voters, v, t, s.nodes[id].votes + 1, r);
    }
  }

  /** A new leader offers every peer its no-op, after all that it had before. */
  lemma NewLeaderOffersNoop(c: Config, id: NodeId, n: NodeState, p: NodeId)
    requires p in Peers(c, id) && |n.log| >= 1
    ensures var req := AppendReqOf(c, id, Promote(c, id, n), p);
            req.prevIndex == |n.log| - 1 && req.prevTerm == LastTerm(n.log)
            && req.entries == [LogEntry(|n.log|, n.term, Noop)]
  {
  }

  // ---- elections ----

  lemma {:induction false} SomeSubset(a: set<NodeId>, n: nat) returns (b: set<NodeId>)
    requires n <= |a|
    ensures b <= a && |b| == n
    decreases |a|
  {
    if n == |a| {
      b := a;
    } else {
      var x :| x in a;
      b := SomeSubset(a - {x}, n);
    }
  }

  /** A member of the group leads, and no other member of the group knows of a later term. */
  ghost predicate LeadsGroup(s: State, group: set<NodeId>, id: NodeId) {
    id in group && group <= s.nodes.Keys && s.nodes[id].role == Leader && NoLater(s, group, s.nodes[id].term)
  }

  /** A foremost member of the highest term campaigns and wins. */
  lemma Campaign(c: Config, group: set<NodeId>, s: State, id: NodeId) returns (r: State)
    requires Reached(c, s) && Shaped(c, s) && group <= c.servers && |group| >= c.quorum >= 2
    requires Foremost(s, group, id) && s.nodes[id].role != Leader && NoLater(s, group, s.nodes[id].term)
    ensures Goes(c, group, s, r) && LeadsGroup(r, group, id)
  {
    var t := Fires(c, group, s, id);
    var voters := SomeSubset(group - {id}, c.quorum - 1);
    forall v | v in voters ensures AsksFor(c, t, id, v) {
      assert Asks(c, t, id, v) && s.nodes[v].term <= s.nodes[id].term;
      assert AsCurrent(s.nodes[id].log, s.nodes[v].log);
    }
    r := WinsVotes(c, group, t, id, voters);
    GoesOn(c, group, s, t, r);
    forall m | m in group ensures r.nodes[m].term <= r.nodes[id].term {
      assert s.nodes[m].term <= s.nodes[id].term;
      assert m != id ==> t.nodes[m] == s.nodes[m];
    }
  }

  /** A foremost member that does not lead raises its term as far as needed, and campaigns. */
  lemma Stands(c: Config, group: set<NodeId>, s: State, id: NodeId) returns (r: State)
    requires Reached(c, s) && Shaped(c, s) && group <= c.servers && |group| >= c.quorum >= 2
    requires Foremost(s, group, id) && s.nodes[id].role != Leader
    ensures Goes(c, group, s, r) && LeadsGroup(r, group, id)
  {
    var term := SomeTerm(s, group);
    var t := Reaches(c, group, s, id, term);
    forall m | m in group
      ensures AsCurrent(t.nodes[id].log, t.nodes[m].log) && t.nodes[m].term <= t.nodes[id].term
    {
      assert AsCurrent(s.nodes[id].log, s.nodes[m].log) && s.nodes[m].term <= term;
    }
    r := Campaign(c, group, t, id);
    GoesOn(c, group, s, t, r);
  }

  lemma GroupElects(c: Config, group: set<NodeId>, s: State) returns (r: State, id: NodeId)
    requires Reached(c, s) && Shaped(c, s) && group <= c.servers && |group| >= c.quorum >= 2
    ensures Goes(c, group, s, r) && LeadsGroup(r, group, id)
  {
    id := SomeForemost(s, group);
    if s.nodes[id].role != Leader {
      r := Stands(c, group, s, id);
    } else if NoLater(s, group, s.nodes[id].term) {
      r := s;
      GoesNowhere(c, group, s);
    } else {
      var m :| m in group && s.nodes[m].term > s.nodes[id].term;
      var t := StepsDown(c, group, s, id, m);
      forall k | k in group ensures AsCurrent(t.nodes[id].log, t.nodes[k].log) {
        assert AsCurrent(s.nodes[id].log, s.nodes[k].log);
      }
      r := Stands(c, group, t, id);
      GoesOn(c, group, s, t, r);
    }
  }

  /** From the end of every run, every majority of two or more can go on by itself until one
      of its members leads it. */
  lemma MajorityElects(c: Config, run: seq<State>, group: set<NodeId>) returns (longer: seq<State>, id: NodeId)
    requires IsRun(c, run) && group <= c.servers && |group| >= c.quorum >= 2
    ensures IsRun(c, longer) && run <= longer && Works(c, group, run[|run| - 1], longer[|longer| - 1])
    ensures LeadsGroup(longer[|longer| - 1], group, id)
  {
    var s := run[|run| - 1];
    assert Reached(c, s);
    ReachedInv(c, s);
    var r: State;
    r, id := GroupElects(c, group, s);
    longer := WorkIsARun(c, run, group, r);
  }

  // ---- who leads ----

  /** The leader that a member knows, if it knows one, is the one elected in its term. */
  ghost predicate HintOk(R: Reigns, id: NodeId, n: NodeState) {
    && (n.leader == "" || (n.term in R && R[n.term].leader == n.leader))
    && (n.role == Leader ==> n.leader == id) && (n.role == Candidate ==> n.leader == "")
  }

  lemma VotingKeepsHint(c: Config, s: State, a: Action)
    requires Shaped(c, s) && Enabled(c, s, a) && IsVoting(a) && HintOk(s.reigns, a.id, s.nodes[a.id])
    ensures HintOk(Do(c, s, a).reigns, a.id, Do(c, s, a).nodes[a.id])
  {
  }

  lemma CopyingKeepsHint(c: Config, s: State, a: Action)
    requires Inv(c, s) && Enabled(c, s, a) && IsCopying(a) && HintOk(s.reigns, a.id, s.nodes[a.id])
    ensures HintOk(Do(c, s, a).reigns, a.id, Do(c, s, a).nodes[a.id])
  {
    if !a.Send? { assert MessageOk(c, s, a.msg); }
  }

  lemma StepKeepsHint(c: Config, s: State, a: Action, id: NodeId)
    requires ConfigOk(c) && Inv(c, s) && Enabled(c, s, a) && id in c.servers && HintOk(s.reigns, id, s.nodes[id])
    ensures id in Do(c, s, a).nodes && HintOk(Do(c, s, a).reigns, id, Do(c, s, a).nodes[id])
  {
    StepKeeps(c, s, a);
    if a.id != id {
      var n := s.nodes[id];
      if n.leader != "" { assert ReignGrows(s.reigns, Do(c, s, a).reigns, n.term, a.id); }
    } else if IsVoting(a) {
      VotingKeepsHint(c, s, a);
    } else if IsCopying(a) {
      CopyingKeepsHint(c, s, a);
    }
  }

  lemma {:induction false} RunHints(c: Config, run: seq<State>, i: nat, id: NodeId)
    requires IsRun(c, run) && i < |run| && id in c.servers
    ensures id in run[i].nodes && HintOk(run[i].reigns, id, run[i].nodes[id])
  {
    if i == 0 {
    } else {
      RunHints(c, run, i - 1, id);
      var a := RunAction(c, run, i - 1);
      StepKeepsHint(c, run[i - 1], a, id);
    }
  }

  /** Whom a member takes to lead, if anyone, was elected in its term; so members of one term, at
      whatever moments, never send a caller to different leaders, and a leader knows itself. */
  lemma HintsAgree(c: Config, run: seq<State>, i: nat, j: nat, a: NodeId, b: NodeId)
    requires IsRun(c, run) && i <= j < |run| && a in c.servers && b in c.servers
    ensures a in run[i].nodes && b in run[j].nodes
    ensures var n, m := run[i].nodes[a], run[j].nodes[b];
            && HintOk(run[i].reigns, a, n)
            && (n.term == m.term && n.leader != "" && m.leader != "" ==> n.leader == m.leader)
  {
    RunHints(c, run, i, a);
    RunHints(c, run, j, b);
    if run[i].nodes[a].leader != "" { ReignPersists(c, run, i, j, run[i].nodes[a].term); }
  }

  // ---- a cluster of one ----

  ghost predicate HasLeader(s: State) { exists id :: id in s.nodes && s.nodes[id].role == Leader }

  lemma {:induction false} SilentAlone(c: Config, run: seq<State>, i: nat)
    requires IsRun(c, run) && i < |run| && |c.servers| == 1
    ensures run[i].net == {} && !HasLeader(run[i])
  {
    if i == 0 {
    } else {
      SilentAlone(c, run, i - 1);
      var a := RunAction(c, run, i - 1);
      AloneStep(c, run[i - 1], a);
    }
  }

  lemma NoPeers(c: Config, id: NodeId)
    requires |c.servers| == 1 && id in c.servers
    ensures Peers(c, id) == {}
  {
    var others := c.servers - {id};
    assert c.servers == others + {id} && |others| == 0;
  }

  lemma AloneStep(c: Config, s: State, a: Action)
    requires Shaped(c, s) && Enabled(c, s, a) && |c.servers| == 1
    requires s.net == {} && !HasLeader(s)
    ensures var s' := Do(c, s, a); s'.net == {} && !HasLeader(s')
  {
    NoPeers(c, a.id);
  }

  /** The condition is exact: some run of a cluster has a leader if and only if the cluster has
      two members or more. */
  lemma LeaderIff(c: Config, run: seq<State>) returns (longer: seq<State>)
    requires IsRun(c, run)
    ensures IsRun(c, longer) && run <= longer
    ensures if |c.servers| >= 2
            then HasLeader(longer[|longer| - 1])
            else forall i :: 0 <= i < |run| ==> !HasLeader(run[i])
  {
    longer := run;
    if |c.servers| >= 2 {
      var id: NodeId;
      longer, id := MajorityElects(c, run, c.servers);
    } else {
      assert |c.servers| == 1;
      forall i | 0 <= i < |run| ensures !HasLeader(run[i]) {
        SilentAlone(c, run, i);
      }
    }
  }
}
