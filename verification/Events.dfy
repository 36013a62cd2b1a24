/**
  The events of the event loop, and what members that handle them can come to.  In every
  reachable state every due event may be handled, and a chain of handled events is a
  longer run.
 */
module Events {
  import opened Models
  import opened RaftNode
  import opened Cluster
  import opened ClusterInvariant
  import opened ClusterSafety
  import opened CommitChoice
  import opened Handlers
  import Repair = LogRepair

  datatype Event =
    | Timer(id: NodeId)                        // the election timer fires
    | Heartbeat(id: NodeId)                    // the heartbeat ticker fires
    | VoteAsked(id: NodeId, vreq: VoteReq)
    | VoteAnswered(id: NodeId, from: NodeId, sent: nat, vresp: VoteResp)
    | AppendAsked(id: NodeId, areq: AppendReq)
    | AppendAnswered(id: NodeId, from: NodeId, sent: nat, aresp: AppendResp, peers: seq<NodeId>)
    | Proposed(id: NodeId, command: Command, ticket: nat)

  /** The event may reach its member: the message has been sent, or the ticket is new. */
  ghost predicate Due(c: Config, s: State, e: Event)
    requires Shaped(c, s)
  {
    && e.id in c.servers
    && match e
       case Timer(_) => true
       case Heartbeat(_) => true
       case VoteAsked(id, req) => VoteCall(id, req) in s.net
       case VoteAnswered(id, from, sent, resp) =>
         VoteReturn(id, from, sent, resp) in s.net && (from, sent) in s.past[id].pending
       case AppendAsked(id, req) => AppendCall(id, req) in s.net
       case AppendAnswered(id, from, sent, resp, peers) =>
         AppendReturn(id, from, sent, resp) in s.net && Lists(c, id, peers)
       case Proposed(_, _, ticket) => ticket !in s.tickets
  }

  /** What the member's handler does. */
  ghost function EffectOf(c: Config, n: NodeState, e: Event): Effect
    requires ConfigOk(c) && e.id in c.servers && (e.AppendAnswered? ==> Lists(c, e.id, e.peers))
  {
    match e
    case Timer(id) => OnTimeout(c, id, n)
    case Heartbeat(id) => Replicate(c, id, n)
    case VoteAsked(id, req) => OnVoteCall(c, id, n, req)
    case VoteAnswered(id, _, sent, resp) => OnVoteReply(c, id, n, sent, resp)
    case AppendAsked(id, req) => OnAppendCall(c, id, n, req)
    case AppendAnswered(id, from, sent, resp, peers) =>
      QuorumFits(c, id, peers);
      OnAppendReply(c, id, n, peers, from, sent, resp)
    case Proposed(id, command, ticket) => OnPropose(c, id, n, command, ticket)
  }

  /** A member of the group handles an event that is due. */
  ghost predicate Handled(c: Config, group: set<NodeId>, s: State, e: Event, s': State) {
    && ConfigOk(c) && Shaped(c, s) && Due(c, s, e) && e.id in group
    && Performs(c, s, e.id, EffectOf(c, s.nodes[e.id], e), s')
  }

  // ---- chains of events ----

  ghost predicate HandledAt(c: Config, group: set<NodeId>, p: seq<State>, es: seq<Event>, i: nat)
    requires i < |es| && |p| == |es| + 1
  {
    Handled(c, group, p[i], es[i], p[i + 1])
  }

  ghost predicate Chain(c: Config, group: set<NodeId>, p: seq<State>, es: seq<Event>) {
    && |p| == |es| + 1
    && forall i {:trigger HandledAt(c, group, p, es, i)} :: 0 <= i < |es| ==> HandledAt(c, group, p, es, i)
  }

  /** Members of the group, and nobody else, handle events that lead from s to r. */
  ghost predicate Works(c: Config, group: set<NodeId>, s: State, r: State) {
    exists p, es :: Chain(c, group, p, es) && p[0] == s && p[|es|] == r
  }

  lemma WorksNowhere(c: Config, group: set<NodeId>, s: State)
    ensures Works(c, group, s, s)
  {
    var p, es := [s], [];
    assert Chain(c, group, p, es) && p[0] == s && p[|es|] == s;
  }

  lemma WorksOnce(c: Config, group: set<NodeId>, s: State, e: Event, r: State)
    requires Handled(c, group, s, e, r)
    ensures Works(c, group, s, r)
  {
    var p, es := [s, r], [e];
    assert HandledAt(c, group, p, es, 0);
    assert Chain(c, group, p, es) && p[0] == s && p[|es|] == r;
  }

  lemma ChainsJoin(
    c: Config, group: set<NodeId>, p: seq<State>, es: seq<Event>, q: seq<State>, fs: seq<Event>)
    requires Chain(c, group, p, es) && Chain(c, group, q, fs) && p[|es|] == q[0]
    ensures Chain(c, group, p + q[1..], es + fs)
  {
    var r, gs := p + q[1..], es + fs;
    forall i | 0 <= i < |gs| ensures HandledAt(c, group, r, gs, i) {
      if i < |es| {
        assert HandledAt(c, group, p, es, i);
      } else {
        var j := i - |es|;
        assert HandledAt(c, group, q, fs, j) && r[i] == q[j] && r[i + 1] == q[j + 1];
      }
    }
  }

  lemma WorksOn(c: Config, group: set<NodeId>, s: State, t: State, u: State)
    requires Works(c, group, s, t) && Works(c, group, t, u)
    ensures Works(c, group, s, u)
  {
    var p, es :| Chain(c, group, p, es) && p[0] == s && p[|es|] == t;
    var q, fs :| Chain(c, group, q, fs) && q[0] == t && q[|fs|] == u;
    ChainsJoin(c, group, p, es, q, fs);
    var r, gs := p + q[1..], es + fs;
    assert r[0] == s && r[|gs|] == u;
  }

  lemma {:induction false} ChainLeads(c: Config, group: set<NodeId>, p: seq<State>, es: seq<Event>, i: nat)
    requires Chain(c, group, p, es) && i <= |es|
    ensures Leads(c, p[0], p[i])
  {
    if i == 0 {
      LeadsNowhere(c, p[0]);
    } else {
      ChainLeads(c, group, p, es, i - 1);
      assert HandledAt(c, group, p, es, i - 1);
      LeadsOn(c, p[0], p[i - 1], p[i]);
    }
  }

  /** What a group works its way to from the end of a run is the end of a longer run. */
  lemma WorkIsARun(c: Config, run: seq<State>, group: set<NodeId>, r: State) returns (longer: seq<State>)
    requires IsRun(c, run) && Works(c, group, run[|run| - 1], r)
    ensures IsRun(c, longer) && run <= longer && longer[|longer| - 1] == r
  {
    var p, es :| Chain(c, group, p, es) && p[0] == run[|run| - 1] && p[|es|] == r;
    ChainLeads(c, group, p, es, |es|);
    longer := LeadsStaysReachable(c, run, r);
  }

  // ---- reachable states ----

  ghost predicate Reached(c: Config, s: State) {
    exists run :: IsRun(c, run) && run[|run| - 1] == s
  }

  lemma ReachedInv(c: Config, s: State)
    requires Reached(c, s)
    ensures ConfigOk(c) && Inv(c, s)
  {
    var run :| IsRun(c, run) && run[|run| - 1] == s;
    RunInv(c, run, |run| - 1);
  }

  /** A group works from one reachable state to another. */
  ghost predicate Goes(c: Config, group: set<NodeId>, s: State, r: State) {
    && Reached(c, s) && Reached(c, r) && ConfigOk(c) && Shaped(c, s) && Shaped(c, r)
    && Works(c, group, s, r) && s.net <= r.net
  }

  lemma GoesNowhere(c: Config, group: set<NodeId>, s: State)
    requires Reached(c, s)
    ensures Goes(c, group, s, s)
  {
    ReachedInv(c, s);
    WorksNowhere(c, group, s);
  }

  lemma GoesOn(c: Config, group: set<NodeId>, s: State, t: State, u: State)
    requires Goes(c, group, s, t) && Goes(c, group, t, u)
    ensures Goes(c, group, s, u)
  {
    WorksOn(c, group, s, t, u);
  }

  /** What becomes of the vote replies that are awaited. */
  ghost predicate Awaits(c: Config, s: State, e: Event, r: State)
    requires Shaped(c, s) && Shaped(c, r) && e.id in c.servers
  {
    && (e.Timer? && s.nodes[e.id].role != Leader ==>
          forall q :: q in Peers(c, e.id) ==> (q, s.nodes[e.id].term + 1) in r.past[e.id].pending)
    && (e.VoteAsked? ==> SamePending(c, s, r))
    && (e.VoteAnswered? && r.nodes[e.id].role == Candidate ==>
          r.past[e.id].pending == s.past[e.id].pending - {(e.from, e.sent)})
  }

  lemma HandlesVote(c: Config, s: State, e: Event) returns (r: State)
    requires Reached(c, s) && ConfigOk(c) && Shaped(c, s) && Due(c, s, e)
    requires e.Timer? || e.VoteAsked? || e.VoteAnswered?
    ensures Performs(c, s, e.id, EffectOf(c, s.nodes[e.id], e), r) && Awaits(c, s, e, r)
  {
    match e
    case Timer(id) => r := TimeoutIsSteps(c, s, id);
    case VoteAsked(id, req) =>
      var run :| IsRun(c, run) && run[|run| - 1] == s;
      CallsAreOurs(c, run, |run| - 1, VoteCall(id, req));
      r := VoteCallIsSteps(c, s, id, req);
    case VoteAnswered(id, from, sent, resp) => r := VoteReplyIsSteps(c, s, id, from, sent, resp);
  }

  lemma HandlesAppend(c: Config, s: State, e: Event) returns (r: State)
    requires Reached(c, s) && ConfigOk(c) && Shaped(c, s) && Due(c, s, e)
    requires !e.Timer? && !e.VoteAsked? && !e.VoteAnswered?
    ensures Performs(c, s, e.id, EffectOf(c, s.nodes[e.id], e), r)
  {
    match e
    case Heartbeat(id) => r := ReplicateIsSteps(c, s, id);
    case AppendAsked(id, req) =>
      var run :| IsRun(c, run) && run[|run| - 1] == s;
      CallsAreOurs(c, run, |run| - 1, AppendCall(id, req));
      r := AppendCallIsSteps(c, s, id, req);
    case AppendAnswered(id, from, sent, resp, peers) =>
      ReachedInv(c, s);
      r := AppendReplyIsSteps(c, s, id, peers, from, sent, resp);
    case Proposed(id, command, ticket) => r := ProposeIsSteps(c, s, id, command, ticket);
  }

  /** In every reachable state, every event that is due may be handled; the next state is
      reachable, and shows exactly what the handler does. */
  lemma Handles(c: Config, group: set<NodeId>, s: State, e: Event) returns (r: State)
    requires Reached(c, s) && ConfigOk(c) && Shaped(c, s) && Due(c, s, e) && e.id in group
    ensures Goes(c, group, s, r) && Performed(s, e.id, EffectOf(c, s.nodes[e.id], e), r) && Awaits(c, s, e, r)
  {
    if e.Timer? || e.VoteAsked? || e.VoteAnswered? {
      r := HandlesVote(c, s, e);
    } else {
      r := HandlesAppend(c, s, e);
    }
    WorksOnce(c, group, s, e, r);
    var run :| IsRun(c, run) && run[|run| - 1] == s;
    var longer := WorkIsARun(c, run, group, r);
    assert longer[|longer| - 1] == r;
  }

  // ---- terms ----

  /** The term that an event brings along. */
  function TermIn(e: Event): nat {
    match e
    case VoteAsked(_, req) => req.term
    case VoteAnswered(_, _, _, resp) => resp.term
    case AppendAsked(_, req) => req.term
    case AppendAnswered(_, _, _, resp, _) => resp.term
    case _ => 0
  }

  lemma VotesAdopt(c: Config, n: NodeState, e: Event)
    requires ConfigOk(c) && e.id in c.servers && (e.VoteAsked? || e.VoteAnswered?)
    requires e.VoteAsked? ==> Genuine(c, e.vreq.version, e.vreq.clusterId)
    ensures var m := EffectOf(c, n, e).node;
            && m.term == (if TermIn(e) > n.term then TermIn(e) else n.term)
            && (TermIn(e) > n.term ==> m.role == Follower)
  {
  }

  lemma CallsAdopt(c: Config, n: NodeState, e: Event)
    requires ConfigOk(c) && e.id in c.servers && e.AppendAsked? && Genuine(c, e.areq.version, e.areq.clusterId)
    ensures var m := EffectOf(c, n, e).node;
            && m.term == (if TermIn(e) > n.term then TermIn(e) else n.term)
            && (TermIn(e) >= n.term ==> m.role == Follower)
  {
    if e.areq.term >= n.term { Repair.LearnsExactly(c, e.id, n, e.areq); }
  }

  lemma RepliesAdopt(c: Config, n: NodeState, e: Event)
    requires ConfigOk(c) && e.id in c.servers && e.AppendAnswered? && Lists(c, e.id, e.peers)
    ensures var m := EffectOf(c, n, e).node;
            && m.term == (if TermIn(e) > n.term then TermIn(e) else n.term)
            && (TermIn(e) > n.term ==> m.role == Follower)
  {
    QuorumFits(c, e.id, e.peers);
    AdvanceKeepsTerm(c, e.id, OnAppendResp(n, e.from, e.sent, e.aresp), e.peers);
  }

  lemma AdvanceKeepsTerm(c: Config, id: NodeId, n: NodeState, peers: seq<NodeId>)
    requires 1 <= c.quorum <= |peers| + 1
    ensures Advance(c, id, n, peers).node.term == n.term
  {
    var choice := ChooseCommit(c, n, peers);
    if choice.Some? { Repair.DrainKeeps(c, n.(commit := choice.value)); }
  }

  /** In every reachable state, a member that handles a message is left with the later of its
      term and the message's; a later term, or a request of a leader of its own term, makes it a follower. */
  lemma TermsAreAdopted(c: Config, s: State, e: Event)
    requires Reached(c, s) && ConfigOk(c) && Shaped(c, s) && Due(c, s, e)
    requires !e.Timer? && !e.Heartbeat? && !e.Proposed?
    ensures var n, m := s.nodes[e.id], EffectOf(c, s.nodes[e.id], e).node;
            && m.term == (if TermIn(e) > n.term then TermIn(e) else n.term)
            && (TermIn(e) > n.term || (e.AppendAsked? && TermIn(e) == n.term) ==> m.role == Follower)
  {
    var run :| IsRun(c, run) && run[|run| - 1] == s;
    if e.VoteAsked? { CallsAreOurs(c, run, |run| - 1, VoteCall(e.id, e.vreq)); }
    if e.AppendAsked? { CallsAreOurs(c, run, |run| - 1, AppendCall(e.id, e.areq)); }
    match e
    case VoteAsked(_, _) => VotesAdopt(c, s.nodes[e.id], e);
    case VoteAnswered(_, _, _, _) => VotesAdopt(c, s.nodes[e.id], e);
    case AppendAsked(_, _) => CallsAdopt(c, s.nodes[e.id], e);
    case AppendAnswered(_, _, _, _, _) => RepliesAdopt(c, s.nodes[e.id], e);
  }

  // ---- news ----

  /** Being the leader, a longer log, and a higher commit index are news. */
  predicate HasNews(n: NodeState, m: NodeState) {
    m.role == Leader && (n.role != Leader || m.log != n.log || m.commit > n.commit)
  }

  lemma AdvanceSpreads(c: Config, id: NodeId, n: NodeState, peers: seq<NodeId>, p: NodeId)
    requires 1 <= c.quorum <= |peers| + 1 && p in Peers(c, id) && n.role == Leader
    ensures var e := Advance(c, id, n, peers);
            && e.node.role == Leader && e.node.log == n.log
            && (e.node.commit > n.commit ==> AppendCall(p, AppendReqOf(c, id, e.node, p)) in e.sent)
  {
    var choice := ChooseCommit(c, n, peers);
    if choice.Some? { Repair.DrainKeeps(c, n.(commit := choice.value)); }
  }

  lemma FollowersHaveNone(c: Config, id: NodeId, n: NodeState, req: AppendReq)
    ensures !HasNews(n, OnAppendCall(c, id, n, req).node)
  {
    if Genuine(c, req.version, req.clusterId) && req.term >= n.term { Repair.LearnsExactly(c, id, n, req); }
  }

  ghost predicate Spreads(c: Config, n: NodeState, e: Event, p: NodeId)
    requires ConfigOk(c) && e.id in c.servers && (e.AppendAnswered? ==> Lists(c, e.id, e.peers))
  {
    HasNews(n, EffectOf(c, n, e).node) ==>
      AppendCall(p, AppendReqOf(c, e.id, EffectOf(c, n, e).node, p)) in EffectOf(c, n, e).sent
  }

  lemma VotesSpread(c: Config, n: NodeState, e: Event, p: NodeId)
    requires ConfigOk(c) && e.id in c.servers && p in Peers(c, e.id) && (e.Timer? || e.VoteAsked? || e.VoteAnswered?)
    ensures Spreads(c, n, e, p)
  {
  }

  lemma RepliesSpread(c: Config, n: NodeState, e: Event, p: NodeId)
    requires ConfigOk(c) && e.id in c.servers && p in Peers(c, e.id) && e.AppendAnswered? && Lists(c, e.id, e.peers)
    ensures Spreads(c, n, e, p)
  {
    QuorumFits(c, e.id, e.peers);
    if n.role == Leader && e.sent == n.term && e.aresp.term <= n.term && e.aresp.success {
      AdvanceSpreads(c, e.id, OnAppendResp(n, e.from, e.sent, e.aresp), e.peers, p);
    }
  }

  /** A leader that has news sends every peer, at once, all that the peer may lack and its commit index. */
  lemma NewsIsSent(c: Config, n: NodeState, e: Event, p: NodeId)
    requires ConfigOk(c) && e.id in c.servers && p in Peers(c, e.id)
    requires e.AppendAnswered? ==> Lists(c, e.id, e.peers)
    ensures Spreads(c, n, e, p)
  {
    match e
    case AppendAnswered(_, _, _, _, _) => RepliesSpread(c, n, e, p);
    case AppendAsked(id, req) => FollowersHaveNone(c, id, n, req);
    case Heartbeat(_) =>
    case Proposed(_, _, _) =>
    case _ => VotesSpread(c, n, e, p);
  }
}
