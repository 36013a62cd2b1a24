/**
  What votes and offices leave in a log.  A member's log stays as it was when it voted
  until it takes entries of that term or a later one, because every append request reaches
  past what its leader was elected with; and a member that led a term has entries of it.
  Both hold of every run, and of the log at the start of every candidacy too.
 */
module ClusterSettled {
  import opened Models
  import opened RaftNode
  import opened Cluster
  import opened ClusterInvariant
  import opened ClusterSteps
  import opened ClusterReplicate
  import opened ClusterSafety

  /** The log has not changed since any vote below or at `hi` whose term it does not reach. */
  ghost predicate KeptSinceVotes(past: Past, log: seq<LogEntry>, hi: nat) {
    forall v {:trigger past.ballots[v]} ::
      v in past.ballots && v <= hi && LastTerm(log) < v ==> past.ballots[v].log == log
  }

  /** The log reaches every term below `hi` that the member led. */
  ghost predicate ReachesOffices(R: Reigns, id: NodeId, log: seq<LogEntry>, hi: nat) {
    forall w {:trigger R[w]} :: w in R && w < hi && R[w].leader == id ==> LastTerm(log) >= w
  }

  ghost predicate SettledLog(R: Reigns, past: Past, id: NodeId, log: seq<LogEntry>, hi: nat) {
    KeptSinceVotes(past, log, hi) && ReachesOffices(R, id, log, hi)
  }

  /** Of the member's log now, and of its log at the start of each candidacy. */
  ghost predicate Settled(R: Reigns, past: Past, id: NodeId, log: seq<LogEntry>, term: nat) {
    && SettledLog(R, past, id, log, term + 1)
    && forall r {:trigger past.runs[r]} :: r in past.runs ==> SettledLog(R, past, id, past.runs[r], r)
  }

  /** The request carries at least the first entry of its leader's own term. */
  ghost predicate Reaching(R: Reigns, m: Message) {
    m.AppendCall? ==> m.areq.term in R && |R[m.areq.term].base| <= m.areq.prevIndex + |m.areq.entries|
  }

  ghost predicate AllSettled(c: Config, s: State)
    requires Shaped(c, s)
  {
    && (forall id {:trigger Settled(s.reigns, s.past[id], id, s.nodes[id].log, s.nodes[id].term)} ::
          id in c.servers ==> Settled(s.reigns, s.past[id], id, s.nodes[id].log, s.nodes[id].term))
    && (forall m {:trigger Reaching(s.reigns, m)} :: m in s.net ==> Reaching(s.reigns, m))
  }

  // ---- one member through a step ----

  /** Votes, candidacies and offices are of terms the member has reached. */
  ghost predicate Bounded(R: Reigns, past: Past, id: NodeId, term: nat) {
    && (forall v :: v in past.ballots ==> v <= term)
    && (forall r :: r in past.runs ==> r <= term && r in past.ballots)
    && (forall w {:trigger R[w]} :: w in R && R[w].leader == id ==> w <= term)
  }

  lemma BoundsHold(c: Config, s: State, id: NodeId)
    requires Inv(c, s) && id in c.servers
    ensures Bounded(s.reigns, s.past[id], id, s.nodes[id].term)
  {
    var n, past := s.nodes[id], s.past[id];
    assert NodeOk(c, s, id);
    forall v | v in past.ballots ensures v <= n.term {
      assert BallotOk(c, s.past, s.reigns, v, past.ballots[v]);
    }
    forall r | r in past.runs ensures r <= n.term && r in past.ballots { assert RunOk(s.past, s.reigns, id, r); }
    forall w | w in s.reigns && s.reigns[w].leader == id ensures w <= n.term {
      assert ReignOk(c, s.past, s.reigns, w);
      assert RunOk(s.past, s.reigns, id, w);
    }
  }

  /** How a step may change the actor: its log stays or takes an entry of its term; a vote
      or a candidacy records the log as it is; and it takes office only with an entry. */
  ghost predicate Moderate(R: Reigns, S: Reigns, p: Past, q: Past, id: NodeId,
                           log: seq<LogEntry>, log': seq<LogEntry>, term: nat, term': nat) {
    && term <= term' && (log' == log || LastTerm(log') >= term')
    && (q.ballots == p.ballots || NewVote(p, q, log, log', term'))
    && (q.runs == p.runs || (term < term' && log' == log && q.runs == p.runs[term' := log]))
    && (forall w {:trigger S[w]} :: w in S && S[w].leader == id ==>
          (w in R && R[w].leader == id) || (w == term' && LastTerm(log') >= term'))
  }

  ghost predicate NewVote(p: Past, q: Past, log: seq<LogEntry>, log': seq<LogEntry>, term': nat) {
    && term' !in p.ballots && log' == log && term' in q.ballots
    && q.ballots == p.ballots[term' := q.ballots[term']] && q.ballots[term'].log == log
  }

  lemma NowSettled(R: Reigns, S: Reigns, p: Past, q: Past, id: NodeId,
                   log: seq<LogEntry>, log': seq<LogEntry>, term: nat, term': nat)
    requires Bounded(R, p, id, term) && Moderate(R, S, p, q, id, log, log', term, term')
    requires SettledLog(R, p, id, log, term + 1)
    ensures SettledLog(S, q, id, log', term' + 1)
  {
  }

  lemma RunsSettled(R: Reigns, S: Reigns, p: Past, q: Past, id: NodeId,
                    log: seq<LogEntry>, log': seq<LogEntry>, term: nat, term': nat, r: nat)
    requires Bounded(R, p, id, term) && Moderate(R, S, p, q, id, log, log', term, term')
    requires Settled(R, p, id, log, term) && r in q.runs
    ensures SettledLog(S, q, id, q.runs[r], r)
  {
    if r in p.runs && q.runs[r] == p.runs[r] {
      assert SettledLog(R, p, id, p.runs[r], r);
    }
  }

  lemma ActorSettled(R: Reigns, S: Reigns, p: Past, q: Past, id: NodeId,
                     log: seq<LogEntry>, log': seq<LogEntry>, term: nat, term': nat)
    requires Bounded(R, p, id, term) && Moderate(R, S, p, q, id, log, log', term, term')
    requires Settled(R, p, id, log, term)
    ensures Settled(S, q, id, log', term')
  {
    NowSettled(R, S, p, q, id, log, log', term, term');
    forall r | r in q.runs ensures SettledLog(S, q, id, q.runs[r], r) {
      RunsSettled(R, S, p, q, id, log, log', term, term', r);
    }
  }

  /** Whoever did not act is as settled as before. */
  lemma OthersSettled(R: Reigns, S: Reigns, actor: NodeId, past: Past, id: NodeId, log: seq<LogEntry>, term: nat)
    requires ReignsGrow(R, S, actor) && id != actor && Settled(R, past, id, log, term)
    ensures Settled(S, past, id, log, term)
  {
    forall w | w in S && S[w].leader == id ensures w in R && R[w].leader == id {
      assert w in R ==> ReignGrows(R, S, w, actor);
    }
    forall r | r in past.runs ensures SettledLog(S, past, id, past.runs[r], r) {
      assert SettledLog(R, past, id, past.runs[r], r);
    }
  }

  // ---- every step is moderate ----

  ghost predicate ModerateStep(c: Config, s: State, s': State, id: NodeId)
    requires Shaped(c, s) && Shaped(c, s') && id in c.servers
  {
    Moderate(s.reigns, s'.reigns, s.past[id], s'.past[id], id,
             s.nodes[id].log, s'.nodes[id].log, s.nodes[id].term, s'.nodes[id].term)
  }

  /** Steps that leave log, votes, candidacies and offices alone. */
  lemma QuietModerate(c: Config, s: State, s': State, id: NodeId)
    requires Shaped(c, s) && Shaped(c, s') && id in c.servers && s'.reigns == s.reigns
    requires s'.nodes[id].log == s.nodes[id].log && s'.nodes[id].term >= s.nodes[id].term
    requires s'.past[id].ballots == s.past[id].ballots && s'.past[id].runs == s.past[id].runs
    ensures ModerateStep(c, s, s', id)
  {
  }

  lemma TimeoutModerate(c: Config, s: State, id: NodeId)
    requires Shaped(c, s) && id in c.servers && Bounded(s.reigns, s.past[id], id, s.nodes[id].term)
    ensures Shaped(c, DoTimeout(c, s, id)) && ModerateStep(c, s, DoTimeout(c, s, id), id)
  {
    var s', n := DoTimeout(c, s, id), s.nodes[id];
    assert NewVote(s.past[id], s'.past[id], n.log, n.log, n.term + 1);
  }

  lemma AnswerVoteModerate(c: Config, s: State, id: NodeId, m: Message)
    requires Shaped(c, s) && id in c.servers && m.VoteCall? && m.vreq.term <= s.nodes[id].term
    ensures Shaped(c, DoAnswerVote(c, s, id, m)) && ModerateStep(c, s, DoAnswerVote(c, s, id, m), id)
  {
    var s', n := DoAnswerVote(c, s, id, m), s.nodes[id];
    if s'.past[id].ballots != s.past[id].ballots {
      assert NewVote(s.past[id], s'.past[id], n.log, n.log, n.term);
    }
  }

  lemma CountVoteModerate(c: Config, s: State, id: NodeId, m: Message)
    requires Shaped(c, s) && id in c.servers && m.VoteReturn? && m.vresp.term <= s.nodes[id].term
    ensures Shaped(c, DoCountVote(c, s, id, m)) && ModerateStep(c, s, DoCountVote(c, s, id, m), id)
  {
    var s', n := DoCountVote(c, s, id, m), s.nodes[id];
    if s'.reigns == s.reigns && s'.nodes[id].log == n.log {
      QuietModerate(c, s, s', id);
    }
  }

  /** A repair leaves the log alone or brings it to the request's term. */
  lemma MergeReaches(c: Config, s: State, id: NodeId, req: AppendReq)
    requires Inv(c, s) && id in c.servers && AppendCall(id, req) in s.net && Reaching(s.reigns, AppendCall(id, req))
    requires req.term == s.nodes[id].term && PrevMatches(s.nodes[id].log, req)
    ensures var merged := Reconcile(s.nodes[id].log, req.prevIndex, req.entries);
            merged == s.nodes[id].log || LastTerm(merged) == req.term
  {
    FollowsFrom(c, s, id, req);
    assert NodeOk(c, s, id);
    MergeFacts(c, s, id, req);
    assert ReignOk(c, s.past, s.reigns, req.term);
  }

  lemma AnswerAppendModerate(c: Config, s: State, id: NodeId, m: Message)
    requires Inv(c, s) && id in c.servers && m in s.net && m.to == id && m.AppendCall? && Reaching(s.reigns, m)
    requires m.areq.term <= s.nodes[id].term
    ensures Shaped(c, DoAnswerAppend(c, s, id, m)) && ModerateStep(c, s, DoAnswerAppend(c, s, id, m), id)
  {
    var s', n, req := DoAnswerAppend(c, s, id, m), s.nodes[id], m.areq;
    var genuine := req.version == PROTOCOL_VERSION && req.clusterId == c.clusterId && req.term >= n.term;
    if !genuine || !PrevMatches(n.log, req) {
      QuietModerate(c, s, s', id);
    } else {
      MergeReaches(c, s, id, req);
      MergedModerate(c, s, s', id);
    }
  }

  lemma MergedModerate(c: Config, s: State, s': State, id: NodeId)
    requires Shaped(c, s) && Shaped(c, s') && id in c.servers && s'.reigns == s.reigns
    requires s'.nodes[id].term == s.nodes[id].term
    requires s'.nodes[id].log == s.nodes[id].log || LastTerm(s'.nodes[id].log) == s.nodes[id].term
    requires s'.past[id].ballots == s.past[id].ballots && s'.past[id].runs == s.past[id].runs
    ensures ModerateStep(c, s, s', id)
  {
  }

  lemma ProposalModerate(c: Config, s: State, id: NodeId, command: Command, ticket: nat)
    requires Inv(c, s) && id in c.servers && s.nodes[id].role == Leader
    ensures var s' := DoPropose(c, s, id, command, ticket); Shaped(c, s') && ModerateStep(c, s, s', id)
  {
    assert NodeOk(c, s, id);
  }

  /** All other steps change nothing that matters here. */
  lemma OtherModerate(c: Config, s: State, a: Action)
    requires Shaped(c, s) && Enabled(c, s, a) && !a.Timeout? && !a.AnswerVote? && !a.CountVote? && !a.AnswerAppend?
    requires !a.ProposeAt?
    ensures Shaped(c, Do(c, s, a)) && ModerateStep(c, s, Do(c, s, a), a.id)
  {
    QuietModerate(c, s, Do(c, s, a), a.id);
  }

  lemma StepModerate(c: Config, s: State, a: Action)
    requires ConfigOk(c) && Inv(c, s) && AllSettled(c, s) && Enabled(c, s, a)
    ensures Shaped(c, Do(c, s, a)) && ModerateStep(c, s, Do(c, s, a), a.id)
  {
    match a
    case Timeout(id) =>
      BoundsHold(c, s, id);
      TimeoutModerate(c, s, id);
    case AnswerVote(id, m) => AnswerVoteModerate(c, s, id, m);
    case CountVote(id, m) => CountVoteModerate(c, s, id, m);
    case AnswerAppend(id, m) =>
      assert Reaching(s.reigns, m);
      AnswerAppendModerate(c, s, id, m);
    case ProposeAt(id, command, ticket) => ProposalModerate(c, s, id, command, ticket);
    case _ => OtherModerate(c, s, a);
  }

  // ---- requests reach past what their leader was elected with ----

  lemma NewCalls(c: Config, s: State, a: Action, m: Message)
    requires Shaped(c, s) && Enabled(c, s, a) && m !in s.net && m in Do(c, s, a).net && m.AppendCall?
    ensures a.Send? && m == AppendCall(a.peer, AppendReqOf(c, a.id, s.nodes[a.id], a.peer))
  {
    match a
    case AnswerAppend(id, msg) =>
    case AnswerVote(id, msg) =>
    case CountVote(id, msg) =>
    case _ =>
  }

  lemma SentReaches(c: Config, s: State, id: NodeId, peer: NodeId)
    requires Inv(c, s) && id in c.servers && s.nodes[id].role == Leader && peer in Peers(c, id)
    ensures Reaching(s.reigns, AppendCall(peer, AppendReqOf(c, id, s.nodes[id], peer)))
  {
    assert NodeOk(c, s, id);
    assert ProgressOk(s.past, s.nodes[id], peer);
    assert ReignOk(c, s.past, s.reigns, s.nodes[id].term);
  }

  lemma MessagesReach(c: Config, s: State, a: Action, m: Message)
    requires ConfigOk(c) && Inv(c, s) && AllSettled(c, s) && Enabled(c, s, a) && m in Do(c, s, a).net
    ensures Reaching(Do(c, s, a).reigns, m)
  {
    StepKeeps(c, s, a);
    if m.AppendCall? {
      if m in s.net {
        assert Reaching(s.reigns, m);
      } else {
        NewCalls(c, s, a, m);
        SentReaches(c, s, a.id, a.peer);
      }
      assert ReignGrows(s.reigns, Do(c, s, a).reigns, m.areq.term, a.id);
    }
  }

  // ---- every run ----

  lemma StepSettles(c: Config, s: State, a: Action)
    requires ConfigOk(c) && Inv(c, s) && AllSettled(c, s) && Enabled(c, s, a)
    ensures Shaped(c, Do(c, s, a)) && AllSettled(c, Do(c, s, a))
  {
    var s' := Do(c, s, a);
    StepKeeps(c, s, a);
    forall id | id in c.servers ensures Settled(s'.reigns, s'.past[id], id, s'.nodes[id].log, s'.nodes[id].term) {
      MemberSettles(c, s, a, id);
    }
    forall m | m in s'.net ensures Reaching(s'.reigns, m) { MessagesReach(c, s, a, m); }
  }

  lemma MemberSettles(c: Config, s: State, a: Action, id: NodeId)
    requires ConfigOk(c) && Inv(c, s) && AllSettled(c, s) && Enabled(c, s, a) && id in c.servers
    ensures var s' := Do(c, s, a);
            Shaped(c, s') && Settled(s'.reigns, s'.past[id], id, s'.nodes[id].log, s'.nodes[id].term)
  {
    var s', n, R := Do(c, s, a), s.nodes[id], s.reigns;
    StepKeeps(c, s, a);
    assert Settled(R, s.past[id], id, n.log, n.term);
    if id == a.id {
      BoundsHold(c, s, id);
      StepModerate(c, s, a);
      ActorSettled(R, s'.reigns, s.past[id], s'.past[id], id, n.log, s'.nodes[id].log, n.term, s'.nodes[id].term);
    } else {
      OthersSettled(s.reigns, s'.reigns, a.id, s.past[id], id, n.log, n.term);
    }
  }

  /** In every run, logs are settled and requests reach. */
  lemma {:induction false} RunSettled(c: Config, run: seq<State>, i: nat)
    requires IsRun(c, run) && i < |run|
    ensures Shaped(c, run[i]) && AllSettled(c, run[i])
  {
    if i == 0 {
    } else {
      RunSettled(c, run, i - 1);
      var a := RunAction(c, run, i - 1);
      StepSettles(c, run[i - 1], a);
    }
  }
}
