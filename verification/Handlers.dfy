/**
  The handlers of the event loop, as values: what each event does to its node, what
  it sends, and what it tells waiting proposers.  The class `Node` in RaftServer.dfy
  performs exactly these effects; here each of them is shown to be a path of
  cluster steps, so everything proved of runs holds of running handlers.
 */
module Handlers {
  import opened Models
  import opened RaftNode
  import opened Cluster
  import opened ClusterInvariant
  import opened ClusterSafety
  import opened CommitChoice

  datatype Effect = Effect(node: NodeState, sent: set<Message>, told: map<nat, Outcome>)

  function Idle(n: NodeState): Effect { Effect(n, {}, map[]) }

  function Then(a: Effect, b: Effect): Effect { Effect(b.node, a.sent + b.sent, a.told + b.told) }

  function Failing(ts: set<nat>): map<nat, Outcome> { map t | t in ts :: NotLeader }

  function Deposed(n: NodeState): map<nat, Outcome> { Failing(FailedBy(n)) }

  /** Step down for good reason: a term or a leader. */
  function Yield(n: NodeState, term: nat, leader: NodeId): Effect {
    Effect(StepDown(n, term, leader), {}, Deposed(n))
  }

  /** What applying the next entry tells, if someone waits for it. */
  function AnswerNext(c: Config, n: NodeState): map<nat, Outcome>
    requires CanApply(c, n)
  {
    var k := n.applied + 1;
    if k in n.waiters then map[n.waiters[k] := Done(NextResult(c, n))] else map[]
  }

  /** Apply committed entries until done or one fails, answering their waiters. */
  function Drain(c: Config, n: NodeState): Effect
    decreases n.commit - n.applied
  {
    if CanApply(c, n) then Then(Effect(ApplyNext(c, n), {}, AnswerNext(c, n)), Drain(c, ApplyNext(c, n))) else Idle(n)
  }

  /** Send every peer what it lacks. */
  function Replicate(c: Config, id: NodeId, n: NodeState): Effect {
    Effect(n,
           if n.role == Leader then set p | p in Peers(c, id) :: AppendCall(p, AppendReqOf(c, id, n, p)) else {},
           map[])
  }

  function OnTimeout(c: Config, id: NodeId, n: NodeState): Effect {
    if n.role == Leader then Idle(n)
    else
      var m := StartElection(id, n);
      Effect(m, set p | p in Peers(c, id) :: VoteCall(p, VoteReqOf(c, id, m)), map[])
  }

  predicate Genuine(c: Config, version: int, clusterId: string) {
    version == PROTOCOL_VERSION && clusterId == c.clusterId
  }

  function OnVoteCall(c: Config, id: NodeId, n: NodeState, req: VoteReq): Effect {
    var (m, resp) := OnVoteReq(c, n, req);
    Effect(m, {VoteReturn(req.candidate, id, req.term, resp)},
           if Genuine(c, req.version, req.clusterId) && req.term > n.term then Deposed(n) else map[])
  }

  /** One more vote; a majority makes this node the leader, which replicates at once. */
  function Count(c: Config, id: NodeId, n: NodeState): Effect {
    var m := n.(votes := n.votes + 1);
    if m.votes >= c.quorum then Replicate(c, id, Promote(c, id, m)) else Idle(m)
  }

  function OnVoteReply(c: Config, id: NodeId, n: NodeState, sent: nat, resp: VoteResp): Effect {
    if resp.term > n.term then Yield(n, resp.term, "")
    else if n.role != Candidate || sent != n.term || !resp.granted then Idle(n)
    else Count(c, id, n)
  }

  /** Adopt the leader's commit index as far as the request covers it, and apply. */
  function Learn(c: Config, n: NodeState, req: AppendReq): Effect {
    var m := FollowerCommit(n, req);
    if m.commit > n.commit then Drain(c, m) else Idle(n)
  }

  /** Recognize the leader, repair the log or refuse, and reply. */
  function Accepted(id: NodeId, n: NodeState, req: AppendReq): Effect {
    var (m, resp) := AcceptAppend(n, req);
    Effect(m, {AppendReturn(req.leader, id, req.term, resp)}, Deposed(n))
  }

  function OnAppendCall(c: Config, id: NodeId, n: NodeState, req: AppendReq): Effect {
    if !Genuine(c, req.version, req.clusterId) || req.term < n.term then
      Effect(n, {AppendReturn(req.leader, id, req.term, AppendResp(n.term, false, 0, 0, 0))}, map[])
    else
      var (m, resp) := AcceptAppend(n, req);
      if resp.success then Then(Accepted(id, n, req), Learn(c, m, req)) else Accepted(id, n, req)
  }

  /** Commit what a majority holds, if that is news; then apply it and tell the peers. */
  function Advance(c: Config, id: NodeId, n: NodeState, peers: seq<NodeId>): Effect
    requires 1 <= c.quorum <= |peers| + 1
  {
    match ChooseCommit(c, n, peers)
    case None => Idle(n)
    case Some(k) =>
      var drained := Drain(c, n.(commit := k));
      Then(drained, Replicate(c, id, drained.node))
  }

  function OnAppendReply(
    c: Config, id: NodeId, n: NodeState, peers: seq<NodeId>, from: NodeId, sent: nat, resp: AppendResp): Effect
    requires 1 <= c.quorum <= |peers| + 1
  {
    var m := OnAppendResp(n, from, sent, resp);
    if resp.term > n.term then Yield(n, resp.term, "")
    else if n.role != Leader || sent != n.term then Idle(n)
    else if !resp.success then Effect(m, {AppendCall(from, AppendReqOf(c, id, m, from))}, map[])
    else Advance(c, id, m, peers)
  }

  function OnPropose(c: Config, id: NodeId, n: NodeState, command: Command, ticket: nat): Effect {
    if n.role == Leader then Replicate(c, id, Propose(n, command, ticket)) else Idle(n)
  }

  /** Recovery: what the disk holds, with the committed rest applied. */
  function OnRecover(c: Config, n: NodeState): Effect { Drain(c, Restart(n)) }

  // ---- paths of steps ----

  ghost predicate Path(c: Config, p: seq<State>) {
    |p| >= 1 && forall i {:trigger StepAt(c, p, i)} :: 0 <= i < |p| - 1 ==> StepAt(c, p, i)
  }

  /** Cluster steps lead from s to s'. */
  ghost predicate Leads(c: Config, s: State, s': State) {
    exists p :: Path(c, p) && p[0] == s && p[|p| - 1] == s'
  }

  lemma LeadsNowhere(c: Config, s: State)
    ensures Leads(c, s, s)
  {
    var p := [s];
    assert Path(c, p) && p[0] == s && p[|p| - 1] == s;
  }

  lemma PathJoins(c: Config, p: seq<State>, q: seq<State>)
    requires Path(c, p) && Path(c, q) && p[|p| - 1] == q[0]
    ensures Path(c, p + q[1..])
  {
    var r := p + q[1..];
    forall i | 0 <= i < |r| - 1 ensures StepAt(c, r, i) {
      if i < |p| - 1 {
        assert StepAt(c, p, i);
      } else {
        var j := i - (|p| - 1);
        assert StepAt(c, q, j) && r[i] == q[j] && r[i + 1] == q[j + 1];
      }
    }
  }

  lemma LeadsOn(c: Config, s: State, t: State, u: State)
    requires Leads(c, s, t) && Leads(c, t, u)
    ensures Leads(c, s, u)
  {
    var p :| Path(c, p) && p[0] == s && p[|p| - 1] == t;
    var q :| Path(c, q) && q[0] == t && q[|q| - 1] == u;
    PathJoins(c, p, q);
    var r := p + q[1..];
    assert r[0] == s && r[|r| - 1] == u;
  }

  lemma LeadsOneStep(c: Config, s: State, a: Action)
    requires Shaped(c, s) && Enabled(c, s, a)
    ensures Leads(c, s, Do(c, s, a))
  {
    var p := [s, Do(c, s, a)];
    assert StepAt(c, p, 0);
    assert Path(c, p) && p[0] == s && p[|p| - 1] == Do(c, s, a);
  }

  /** What steps lead to from a reachable state is reachable. */
  lemma LeadsStaysReachable(c: Config, run: seq<State>, s': State) returns (longer: seq<State>)
    requires IsRun(c, run) && Leads(c, run[|run| - 1], s')
    ensures IsRun(c, longer) && run <= longer && longer[|longer| - 1] == s'
  {
    var p :| Path(c, p) && p[0] == run[|run| - 1] && p[|p| - 1] == s';
    assert Path(c, run);
    PathJoins(c, run, p);
    longer := run + p[1..];
  }

  // ---- maps updated twice ----

  lemma Overwrites<K, V>(m: map<K, V>, p: K, v: V, w: V)
    ensures m[p := v][p := w] == m[p := w]
  {
  }

  lemma OverwritesTwo<K, V>(m: map<K, V>, p: K, q: K, v: V, w: V, v': V, w': V)
    requires p != q
    ensures m[p := v][q := w][p := v'][q := w'] == m[p := v'][q := w']
  {
  }

  // ---- effects of steps ----

  /** s' is s after one member's effect; nothing else that members or proposers see has changed. */
  ghost predicate Performed(s: State, id: NodeId, e: Effect, s': State) {
    && s'.nodes == s.nodes[id := e.node]
    && s'.net == s.net + e.sent
    && s'.outcomes == s.outcomes + e.told
  }

  /** Cluster steps lead from s to s', and all they show is the effect. */
  ghost predicate Performs(c: Config, s: State, id: NodeId, e: Effect, s': State) {
    Shaped(c, s') && Leads(c, s, s') && Performed(s, id, e, s')
  }

  lemma ThenPerformed(s: State, id: NodeId, a: Effect, t: State, b: Effect, u: State)
    requires Performed(s, id, a, t) && Performed(t, id, b, u)
    ensures Performed(s, id, Then(a, b), u)
  {
  }

  lemma ThenPerforms(c: Config, s: State, id: NodeId, a: Effect, t: State, b: Effect, u: State)
    requires Performs(c, s, id, a, t) && Performs(c, t, id, b, u)
    ensures Performs(c, s, id, Then(a, b), u)
  {
    LeadsOn(c, s, t, u);
    ThenPerformed(s, id, a, t, b, u);
  }

  /** A step that shows nothing but the new node comes before an effect. */
  lemma AfterIdle(c: Config, s: State, id: NodeId, m: NodeState, t: State, e: Effect, u: State)
    requires Performs(c, s, id, Idle(m), t) && Performs(c, t, id, e, u)
    ensures Performs(c, s, id, e, u)
  {
    ThenPerforms(c, s, id, Idle(m), t, e, u);
    assert {} + e.sent == e.sent && map[] + e.told == e.told;
  }

  lemma IdlePerforms(c: Config, s: State, id: NodeId)
    requires Shaped(c, s) && id in s.nodes
    ensures Performs(c, s, id, Idle(s.nodes[id]), s)
  {
    LeadsNowhere(c, s);
  }

  lemma ApplyIsStep(c: Config, s: State, id: NodeId) returns (t: State)
    requires Shaped(c, s) && id in c.servers && CanApply(c, s.nodes[id])
    ensures Performs(c, s, id, Effect(ApplyNext(c, s.nodes[id]), {}, AnswerNext(c, s.nodes[id])), t)
  {
    t := DoApply(c, s, id);
    LeadsOneStep(c, s, ApplyEntry(id));
  }

  lemma {:induction false} DrainIsSteps(c: Config, s: State, id: NodeId) returns (s': State)
    requires Shaped(c, s) && id in c.servers
    ensures Performs(c, s, id, Drain(c, s.nodes[id]), s')
    decreases s.nodes[id].commit - s.nodes[id].applied
  {
    var n := s.nodes[id];
    if CanApply(c, n) {
      var t := ApplyIsStep(c, s, id);
      var first := Effect(ApplyNext(c, n), {}, AnswerNext(c, n));
      s' := DrainIsSteps(c, t, id);
      ThenPerforms(c, s, id, first, t, Drain(c, ApplyNext(c, n)), s');
    } else {
      IdlePerforms(c, s, id);
      s' := s;
    }
  }

  ghost function CallsTo(c: Config, id: NodeId, n: NodeState, targets: set<NodeId>): set<Message> {
    set p | p in targets :: AppendCall(p, AppendReqOf(c, id, n, p))
  }

  lemma {:induction false} SendsAreSteps(c: Config, s: State, id: NodeId, targets: set<NodeId>) returns (s': State)
    requires Shaped(c, s) && id in c.servers && s.nodes[id].role == Leader && targets <= Peers(c, id)
    ensures Performs(c, s, id, Effect(s.nodes[id], CallsTo(c, id, s.nodes[id], targets), map[]), s')
    decreases targets
  {
    var n := s.nodes[id];
    if targets == {} {
      IdlePerforms(c, s, id);
      s' := s;
    } else {
      var p :| p in targets;
      var call := AppendCall(p, AppendReqOf(c, id, n, p));
      var t := s.(net := s.net + {call});
      LeadsOneStep(c, s, Send(id, p));
      assert Performs(c, s, id, Effect(n, {call}, map[]), t);
      s' := SendsAreSteps(c, t, id, targets - {p});
      ThenPerforms(c, s, id, Effect(n, {call}, map[]), t, Effect(n, CallsTo(c, id, n, targets - {p}), map[]), s');
      assert CallsTo(c, id, n, targets) == {call} + CallsTo(c, id, n, targets - {p});
    }
  }

  lemma ReplicateIsSteps(c: Config, s: State, id: NodeId) returns (s': State)
    requires Shaped(c, s) && id in c.servers
    ensures Performs(c, s, id, Replicate(c, id, s.nodes[id]), s')
  {
    if s.nodes[id].role == Leader {
      s' := SendsAreSteps(c, s, id, Peers(c, id));
    } else {
      IdlePerforms(c, s, id);
      s' := s;
    }
  }

  lemma YieldIsSteps(c: Config, s: State, id: NodeId, msg: Message) returns (s': State)
    requires Shaped(c, s) && id in c.servers && msg in s.net && msg.to == id && TermOf(msg) > s.nodes[id].term
    ensures Performs(c, s, id, Yield(s.nodes[id], TermOf(msg), ""), s') && s'.past == s.past
  {
    s' := DoObserve(c, s, id, TermOf(msg));
    LeadsOneStep(c, s, ObserveTerm(id, msg));
  }

  // ---- every handler is a path of steps ----

  lemma TimeoutIsSteps(c: Config, s: State, id: NodeId) returns (s': State)
    requires Shaped(c, s) && id in c.servers
    ensures Performs(c, s, id, OnTimeout(c, id, s.nodes[id]), s')
    ensures s.nodes[id].role != Leader ==>
              forall q :: q in Peers(c, id) ==> (q, s.nodes[id].term + 1) in s'.past[id].pending
  {
    if s.nodes[id].role == Leader {
      IdlePerforms(c, s, id);
      s' := s;
    } else {
      s' := DoTimeout(c, s, id);
      LeadsOneStep(c, s, Timeout(id));
    }
  }

  /** The same vote replies are awaited. */
  ghost predicate SamePending(c: Config, s: State, s': State)
    requires Shaped(c, s) && Shaped(c, s')
  {
    forall p {:trigger s'.past[p]} :: p in c.servers ==> s'.past[p].pending == s.past[p].pending
  }

  lemma AnswerVoteIsSteps(c: Config, s: State, id: NodeId, req: VoteReq) returns (s': State)
    requires Shaped(c, s) && id in c.servers && VoteCall(id, req) in s.net && req.term <= s.nodes[id].term
    ensures Performs(c, s, id, OnVoteCall(c, id, s.nodes[id], req), s') && SamePending(c, s, s')
  {
    s' := DoAnswerVote(c, s, id, VoteCall(id, req));
    LeadsOneStep(c, s, AnswerVote(id, VoteCall(id, req)));
  }

  /** Adopting a later term first changes nothing about how a vote call is handled, */
  lemma YieldThenVote(c: Config, id: NodeId, n: NodeState, req: VoteReq)
    requires Genuine(c, req.version, req.clusterId) && req.term > n.term
    ensures Then(Yield(n, req.term, ""), OnVoteCall(c, id, StepDown(n, req.term, ""), req)) == OnVoteCall(c, id, n, req)
  {
  }

  lemma VoteCallIsSteps(c: Config, s: State, id: NodeId, req: VoteReq) returns (s': State)
    requires Shaped(c, s) && id in c.servers && VoteCall(id, req) in s.net
    requires Genuine(c, req.version, req.clusterId) || req.term <= s.nodes[id].term
    ensures Performs(c, s, id, OnVoteCall(c, id, s.nodes[id], req), s') && SamePending(c, s, s')
  {
    var n := s.nodes[id];
    if req.term > n.term {
      var t := YieldIsSteps(c, s, id, VoteCall(id, req));
      s' := AnswerVoteIsSteps(c, t, id, req);
      YieldThenVote(c, id, n, req);
      ThenPerforms(c, s, id, Yield(n, req.term, ""), t, OnVoteCall(c, id, t.nodes[id], req), s');
    } else {
      s' := AnswerVoteIsSteps(c, s, id, req);
    }
  }

  lemma VoteReplyIsSteps(c: Config, s: State, id: NodeId, from: NodeId, sent: nat, resp: VoteResp) returns (s': State)
    requires Shaped(c, s) && id in c.servers && VoteReturn(id, from, sent, resp) in s.net
    requires (from, sent) in s.past[id].pending
    ensures Performs(c, s, id, OnVoteReply(c, id, s.nodes[id], sent, resp), s')
    ensures s'.nodes[id].role == Candidate ==> s'.past[id].pending == s.past[id].pending - {(from, sent)}
  {
    var n, msg := s.nodes[id], VoteReturn(id, from, sent, resp);
    if resp.term > n.term {
      s' := YieldIsSteps(c, s, id, msg);
    } else {
      var m, t := OnVoteResp(c, id, n, sent, resp), DoCountVote(c, s, id, msg);
      LeadsOneStep(c, s, CountVote(id, msg));
      assert Performs(c, s, id, Idle(m), t);
      s' := t;
      if n.role == Candidate && m.role == Leader {
        s' := ReplicateIsSteps(c, t, id);
        AfterIdle(c, s, id, m, t, Replicate(c, id, m), s');
      }
    }
  }

  /** Merging a batch twice is merging it once. */
  lemma ReconcileTwice(log: seq<LogEntry>, prev: nat, entries: seq<LogEntry>)
    requires prev < |log|
    ensures var merged := Reconcile(log, prev, entries);
            prev < |merged| && merged[prev] == log[prev] && Reconcile(merged, prev, entries) == merged
  {
    var merged, k := Reconcile(log, prev, entries), Present(log, prev, entries, 0);
    forall i | 0 <= i < |entries| ensures Holds(merged, prev, entries, i) {
      if i < k { assert Holds(log, prev, entries, i); }
    }
    assert Present(merged, prev, entries, 0) == |entries|;
  }

  lemma AcceptIsStep(c: Config, s: State, id: NodeId, req: AppendReq) returns (t: State)
    requires Shaped(c, s) && id in c.servers && AppendCall(id, req) in s.net
    requires Genuine(c, req.version, req.clusterId) && req.term == s.nodes[id].term
    ensures Performs(c, s, id, Accepted(id, s.nodes[id], req), t)
  {
    t := DoAnswerAppend(c, s, id, AppendCall(id, req));
    LeadsOneStep(c, s, AnswerAppend(id, AppendCall(id, req)));
  }

  lemma StaleIsStep(c: Config, s: State, id: NodeId, req: AppendReq) returns (t: State)
    requires Shaped(c, s) && id in c.servers && AppendCall(id, req) in s.net && req.term <= s.nodes[id].term
    requires !Genuine(c, req.version, req.clusterId) || req.term < s.nodes[id].term
    ensures Performs(c, s, id, OnAppendCall(c, id, s.nodes[id], req), t)
  {
    t := DoAnswerAppend(c, s, id, AppendCall(id, req));
    LeadsOneStep(c, s, AnswerAppend(id, AppendCall(id, req)));
  }

  /** The part of an append call that needs no later term: answer, learn, apply. */
  lemma AnswerAppendIsSteps(c: Config, s: State, id: NodeId, req: AppendReq) returns (s': State)
    requires Shaped(c, s) && id in c.servers && AppendCall(id, req) in s.net && req.term <= s.nodes[id].term
    ensures Performs(c, s, id, OnAppendCall(c, id, s.nodes[id], req), s')
  {
    var n := s.nodes[id];
    if !Genuine(c, req.version, req.clusterId) || req.term < n.term {
      s' := StaleIsStep(c, s, id, req);
    } else {
      var (m, resp) := AcceptAppend(n, req);
      var t := AcceptIsStep(c, s, id, req);
      s' := t;
      if resp.success {
        s' := LearnIsSteps(c, t, id, n.log, req);
        ThenPerforms(c, s, id, Accepted(id, n, req), t, Learn(c, m, req), s');
      }
    }
  }

  /** Adopting the leader's commit index, once the log holds the batch. */
  lemma LearnIsStep(c: Config, s: State, id: NodeId, before: seq<LogEntry>, req: AppendReq) returns (t: State)
    requires Shaped(c, s) && id in c.servers && AppendCall(id, req) in s.net && req.term == s.nodes[id].term
    requires PrevMatches(before, req) && s.nodes[id].log == Reconcile(before, req.prevIndex, req.entries)
    ensures Performs(c, s, id, Idle(FollowerCommit(s.nodes[id], req)), t)
  {
    ReconcileTwice(before, req.prevIndex, req.entries);
    t := WithNode(s, id, FollowerCommit(s.nodes[id], req));
    LeadsOneStep(c, s, LearnCommit(id, AppendCall(id, req)));
  }

  lemma LearnIsSteps(c: Config, s: State, id: NodeId, before: seq<LogEntry>, req: AppendReq) returns (s': State)
    requires Shaped(c, s) && id in c.servers && AppendCall(id, req) in s.net && req.term == s.nodes[id].term
    requires PrevMatches(before, req) && s.nodes[id].log == Reconcile(before, req.prevIndex, req.entries)
    ensures Performs(c, s, id, Learn(c, s.nodes[id], req), s')
  {
    var learned := FollowerCommit(s.nodes[id], req);
    if learned.commit > s.nodes[id].commit {
      var t := LearnIsStep(c, s, id, before, req);
      s' := DrainIsSteps(c, t, id);
      AfterIdle(c, s, id, learned, t, Drain(c, learned), s');
    } else {
      IdlePerforms(c, s, id);
      s' := s;
    }
  }

  lemma AppendCallIsSteps(c: Config, s: State, id: NodeId, req: AppendReq) returns (s': State)
    requires Shaped(c, s) && id in c.servers && AppendCall(id, req) in s.net
    requires Genuine(c, req.version, req.clusterId) || req.term <= s.nodes[id].term
    ensures Performs(c, s, id, OnAppendCall(c, id, s.nodes[id], req), s')
  {
    var n := s.nodes[id];
    if req.term > n.term {
      var t := YieldIsSteps(c, s, id, AppendCall(id, req));
      s' := AnswerAppendIsSteps(c, t, id, req);
      YieldThenAppend(c, id, n, req);
      ThenPerforms(c, s, id, Yield(n, req.term, ""), t, OnAppendCall(c, id, t.nodes[id], req), s');
    } else {
      s' := AnswerAppendIsSteps(c, s, id, req);
    }
  }

  lemma ThenAssociates(a: Effect, b: Effect, d: Effect)
    ensures Then(Then(a, b), d) == Then(a, Then(b, d))
  {
  }

  /** or an append call. */
  lemma YieldThenAppend(c: Config, id: NodeId, n: NodeState, req: AppendReq)
    requires Genuine(c, req.version, req.clusterId) && req.term > n.term
    ensures Then(Yield(n, req.term, ""), OnAppendCall(c, id, StepDown(n, req.term, ""), req))
            == OnAppendCall(c, id, n, req)
  {
    var m := StepDown(n, req.term, "");
    assert StepDown(m, req.term, req.leader) == StepDown(n, req.term, req.leader);
    var (f, resp) := AcceptAppend(n, req);
    var reply := {AppendReturn(req.leader, id, req.term, resp)};
    assert Deposed(m) == map[];
    assert Then(Yield(n, req.term, ""), Effect(f, reply, map[])) == Effect(f, reply, Deposed(n));
    ThenAssociates(Yield(n, req.term, ""), Effect(f, reply, map[]), Learn(c, f, req));
  }

  lemma RecordIsStep(c: Config, s: State, id: NodeId, from: NodeId, sent: nat, resp: AppendResp) returns (t: State)
    requires Shaped(c, s) && id in c.servers && AppendReturn(id, from, sent, resp) in s.net
    requires resp.term <= s.nodes[id].term
    ensures Performs(c, s, id, Idle(OnAppendResp(s.nodes[id], from, sent, resp)), t)
  {
    t := WithNode(s, id, OnAppendResp(s.nodes[id], from, sent, resp));
    LeadsOneStep(c, s, RecordAppend(id, AppendReturn(id, from, sent, resp)));
  }

  /** What a leader chooses to commit after a reply may be committed. */
  lemma RecordedChoice(c: Config, s: State, id: NodeId, peers: seq<NodeId>, from: NodeId, sent: nat, resp: AppendResp)
    requires ConfigOk(c) && Inv(c, s) && id in c.servers && Lists(c, id, peers) && 1 <= c.quorum <= |peers| + 1
    requires AppendReturn(id, from, sent, resp) in s.net && resp.term <= s.nodes[id].term && s.nodes[id].role == Leader
    ensures var m := OnAppendResp(s.nodes[id], from, sent, resp); var choice := ChooseCommit(c, m, peers);
            choice.Some? ==> Committable(c, id, m, choice.value)
  {
    var a := RecordAppend(id, AppendReturn(id, from, sent, resp));
    StepKeeps(c, s, a);
    LeaderChoosesExactly(c, Do(c, s, a), id, peers, 0);
  }

  lemma AppendReplyIsSteps(
    c: Config, s: State, id: NodeId, peers: seq<NodeId>, from: NodeId, sent: nat, resp: AppendResp)
    returns (s': State)
    requires ConfigOk(c) && Inv(c, s) && id in c.servers && Lists(c, id, peers)
    requires AppendReturn(id, from, sent, resp) in s.net
    ensures 1 <= c.quorum <= |peers| + 1
    ensures Performs(c, s, id, OnAppendReply(c, id, s.nodes[id], peers, from, sent, resp), s')
  {
    QuorumFits(c, id, peers);
    var n, m := s.nodes[id], OnAppendResp(s.nodes[id], from, sent, resp);
    if resp.term > n.term {
      s' := YieldIsSteps(c, s, id, AppendReturn(id, from, sent, resp));
    } else if n.role != Leader || sent != n.term {
      IdlePerforms(c, s, id);
      s' := s;
    } else {
      var t := RecordIsStep(c, s, id, from, sent, resp);
      if resp.success {
        RecordedChoice(c, s, id, peers, from, sent, resp);
        s' := AdvanceIsSteps(c, t, id, peers);
        AfterIdle(c, s, id, m, t, Advance(c, id, m, peers), s');
      } else {
        assert from in Peers(c, id) by { assert MessageOk(c, s, AppendReturn(id, from, sent, resp)); }
        s' := SendsAreSteps(c, t, id, {from});
        AfterIdle(c, s, id, m, t, Effect(m, CallsTo(c, id, m, {from}), map[]), s');
        assert CallsTo(c, id, m, {from}) == {AppendCall(from, AppendReqOf(c, id, m, from))};
      }
    }
  }

  lemma AdvanceIsSteps(c: Config, s: State, id: NodeId, peers: seq<NodeId>) returns (s': State)
    requires Shaped(c, s) && id in c.servers && s.nodes[id].role == Leader && 1 <= c.quorum <= |peers| + 1
    requires var choice := ChooseCommit(c, s.nodes[id], peers);
             choice.Some? ==> Committable(c, id, s.nodes[id], choice.value)
    ensures Performs(c, s, id, Advance(c, id, s.nodes[id], peers), s')
  {
    var n := s.nodes[id];
    var choice := ChooseCommit(c, n, peers);
    if choice.None? {
      IdlePerforms(c, s, id);
      s' := s;
    } else {
      var drained := Drain(c, n.(commit := choice.value));
      var t := CommitIsSteps(c, s, id, choice.value);
      s' := ReplicateIsSteps(c, t, id);
      ThenPerforms(c, s, id, drained, t, Replicate(c, id, drained.node), s');
    }
  }

  lemma CommitIsStep(c: Config, s: State, id: NodeId, k: nat) returns (t: State)
    requires Shaped(c, s) && id in c.servers && s.nodes[id].role == Leader && Committable(c, id, s.nodes[id], k)
    ensures Performs(c, s, id, Idle(s.nodes[id].(commit := k)), t)
  {
    t := DoAdvanceCommit(c, s, id, k);
    LeadsOneStep(c, s, AdvanceCommit(id, k));
  }

  lemma CommitIsSteps(c: Config, s: State, id: NodeId, k: nat) returns (s': State)
    requires Shaped(c, s) && id in c.servers && s.nodes[id].role == Leader && Committable(c, id, s.nodes[id], k)
    ensures Performs(c, s, id, Drain(c, s.nodes[id].(commit := k)), s')
  {
    var m := s.nodes[id].(commit := k);
    var t := CommitIsStep(c, s, id, k);
    s' := DrainIsSteps(c, t, id);
    AfterIdle(c, s, id, m, t, Drain(c, m), s');
  }

  lemma ProposeIsSteps(c: Config, s: State, id: NodeId, command: Command, ticket: nat) returns (s': State)
    requires Shaped(c, s) && id in c.servers && ticket !in s.tickets
    ensures Performs(c, s, id, OnPropose(c, id, s.nodes[id], command, ticket), s')
  {
    var n := s.nodes[id];
    if n.role == Leader {
      var t := DoPropose(c, s, id, command, ticket);
      LeadsOneStep(c, s, ProposeAt(id, command, ticket));
      var m := Propose(n, command, ticket);
      assert Performs(c, s, id, Idle(m), t);
      s' := ReplicateIsSteps(c, t, id);
      AfterIdle(c, s, id, m, t, Replicate(c, id, m), s');
    } else {
      IdlePerforms(c, s, id);
      s' := s;
    }
  }

  /** A crash at any point, then recovery with replay of what was committed. */
  lemma RecoverIsSteps(c: Config, s: State, id: NodeId) returns (s': State)
    requires Shaped(c, s) && id in c.servers
    ensures Performs(c, s, id, OnRecover(c, s.nodes[id]), s')
  {
    var n, t := s.nodes[id], DoCrash(c, s, id);
    LeadsOneStep(c, s, Crash(id));
    assert Performs(c, s, id, Idle(Restart(n)), t);
    s' := DrainIsSteps(c, t, id);
    AfterIdle(c, s, id, Restart(n), t, Drain(c, Restart(n)), s');
  }

  // ---- what handlers may expect of the calls they get ----

  /** Made by a member of this cluster, speaking this protocol. */
  ghost predicate Ours(c: Config, m: Message) {
    && (m.VoteCall? ==> Genuine(c, m.vreq.version, m.vreq.clusterId))
    && (m.AppendCall? ==> Genuine(c, m.areq.version, m.areq.clusterId))
  }

  lemma StepSendsOurs(c: Config, s: State, a: Action, m: Message)
    requires Shaped(c, s) && Enabled(c, s, a) && m !in s.net && m in Do(c, s, a).net
    ensures Ours(c, m)
  {
    match a
    case AnswerAppend(id, msg) =>
    case AnswerVote(id, msg) =>
    case CountVote(id, msg) =>
    case _ =>
  }

  lemma {:induction false} CallsAreOurs(c: Config, run: seq<State>, i: nat, m: Message)
    requires IsRun(c, run) && i < |run| && m in run[i].net
    ensures Ours(c, m)
  {
    if i > 0 {
      if m in run[i - 1].net {
        CallsAreOurs(c, run, i - 1, m);
      } else {
        var a := RunAction(c, run, i - 1);
        StepSendsOurs(c, run[i - 1], a, m);
      }
    }
  }

  /** In every run, the entries of an append call carry the indexes that follow its previous one. */
  lemma CallsContinueTheLog(c: Config, run: seq<State>, i: nat, m: Message, j: nat)
    requires IsRun(c, run) && i < |run| && m in run[i].net && m.AppendCall? && j < |m.areq.entries|
    ensures m.areq.entries[j].index == m.areq.prevIndex + 1 + j
  {
    RunInv(c, run, i);
    assert MessageOk(c, run[i], m);
    var log := run[i].reigns[m.areq.term].log;
    assert ReignOk(c, run[i].past, run[i].reigns, m.areq.term);
    assert EntryOk(log, m.areq.prevIndex + 1 + j);
  }

  /** In every run, whatever call has been sent to a member may be handled. */
  lemma VoteCallInRun(c: Config, run: seq<State>, id: NodeId, req: VoteReq) returns (s': State)
    requires IsRun(c, run) && id in c.servers && VoteCall(id, req) in run[|run| - 1].net
    ensures id in run[|run| - 1].nodes
    ensures Performs(c, run[|run| - 1], id, OnVoteCall(c, id, run[|run| - 1].nodes[id], req), s')
  {
    RunInv(c, run, |run| - 1);
    CallsAreOurs(c, run, |run| - 1, VoteCall(id, req));
    s' := VoteCallIsSteps(c, run[|run| - 1], id, req);
  }

  lemma AppendCallInRun(c: Config, run: seq<State>, id: NodeId, req: AppendReq) returns (s': State)
    requires IsRun(c, run) && id in c.servers && AppendCall(id, req) in run[|run| - 1].net
    ensures id in run[|run| - 1].nodes
    ensures Performs(c, run[|run| - 1], id, OnAppendCall(c, id, run[|run| - 1].nodes[id], req), s')
  {
    RunInv(c, run, |run| - 1);
    CallsAreOurs(c, run, |run| - 1, AppendCall(id, req));
    s' := AppendCallIsSteps(c, run[|run| - 1], id, req);
  }
}
