/**
  The cluster as a state machine.  Every step is one event at one member, cut at
  its durable writes: a handler of the event loop is a sequence of these steps
  (Handlers.dfy), and a crash may fall between any two of them (Durability.dfy).

  The network only ever gains messages.  A message that is never delivered is
  lost; one delivered twice is duplicated; the order of delivery is free.  Each
  RequestVote call, though, hands at most one reply to the candidate's loop.
 */
module Cluster {
  import opened Models
  import opened RaftNode

  datatype Message =
    | VoteCall(to: NodeId, vreq: VoteReq)
    | VoteReturn(to: NodeId, from: NodeId, sent: nat, vresp: VoteResp)
    | AppendCall(to: NodeId, areq: AppendReq)
    | AppendReturn(to: NodeId, from: NodeId, sent: nat, aresp: AppendResp)

  function TermOf(m: Message): nat {
    match m
    case VoteCall(_, r) => r.term
    case VoteReturn(_, _, _, r) => r.term
    case AppendCall(_, r) => r.term
    case AppendReturn(_, _, _, r) => r.term
  }

  // ---- history: what a proof needs to remember ----

  /** A vote, with the voter's log when it was cast. */
  datatype Ballot = Ballot(candidate: NodeId, log: seq<LogEntry>)

  /** What one member has done: votes by term, its log at the start of each of its
      candidacies, the highest index it acknowledged to each term's leader, the
      RequestVote calls whose reply is outstanding, and the votes counted so far. */
  datatype Past = Past(
    ballots: map<nat, Ballot>,
    runs: map<nat, seq<LogEntry>>,
    acks: map<nat, nat>,
    pending: set<(NodeId, nat)>,
    tally: set<NodeId>)

  /** A term's leader: who elected it, its log at the election, its log since. */
  datatype Reign = Reign(leader: NodeId, voters: set<NodeId>, base: seq<LogEntry>, log: seq<LogEntry>)

  /** The highest index a term's leader committed, and the majority that held it. */
  datatype Commitment = Commitment(index: nat, holders: set<NodeId>)

  /** A proposal as its proposer knows it, and what the proposer is told. */
  datatype Ticket = Ticket(node: NodeId, term: nat, index: nat, command: Command)
  datatype Outcome = Done(result: Result) | NotLeader

  datatype State = State(
    nodes: map<NodeId, NodeState>,
    net: set<Message>,
    past: map<NodeId, Past>,
    reigns: map<nat, Reign>,
    commits: map<nat, Commitment>,
    tickets: map<nat, Ticket>,
    outcomes: map<nat, Outcome>)

  ghost predicate Shaped(c: Config, s: State) {
    && "" !in c.servers
    && s.nodes.Keys == c.servers
    && s.past.Keys == c.servers
  }

  ghost function InitState(c: Config): State {
    State(map id | id in c.servers :: InitNode(c),
          {},
          map id | id in c.servers :: Past(map[], map[], map[], {}, {}),
          map[], map[], map[], map[])
  }

  datatype Action =
    | Timeout(id: NodeId)                              // the election timer fires
    | ObserveTerm(id: NodeId, msg: Message)            // persist a higher term seen in a message
    | AnswerVote(id: NodeId, msg: Message)             // decide a vote request of the current term
    | CountVote(id: NodeId, msg: Message)              // a vote reply reaches the candidate
    | LoseVote(id: NodeId, peer: NodeId, sent: nat)    // a vote call fails or times out
    | AnswerAppend(id: NodeId, msg: Message)           // repair the log, or refuse
    | LearnCommit(id: NodeId, msg: Message)            // a follower adopts the leader's commit index
    | RecordAppend(id: NodeId, msg: Message)           // an append reply reaches the leader
    | AdvanceCommit(id: NodeId, index: nat)            // the leader commits by counting
    | ApplyEntry(id: NodeId)                           // one committed entry is applied
    | Send(id: NodeId, peer: NodeId)                   // the leader replicates to one peer
    | ProposeAt(id: NodeId, command: Command, ticket: nat)
    | Deregister(id: NodeId, index: nat)               // some caller stops waiting on an index
    | Crash(id: NodeId)                                // crash, then recover from disk

  /** Steps about terms and votes, and steps about copying the log. */
  predicate IsVoting(a: Action) { a.Timeout? || a.ObserveTerm? || a.AnswerVote? || a.CountVote? || a.LoseVote? }
  predicate IsCopying(a: Action) { a.AnswerAppend? || a.LearnCommit? || a.RecordAppend? || a.Send? }

  ghost predicate Enabled(c: Config, s: State, a: Action)
    requires Shaped(c, s)
  {
    a.id in c.servers &&
    var n := s.nodes[a.id];
    match a
    case Timeout(_) => n.role != Leader
    case ObserveTerm(id, m) => m in s.net && m.to == id && TermOf(m) > n.term
    case AnswerVote(id, m) => m in s.net && m.to == id && m.VoteCall? && m.vreq.term <= n.term
    case CountVote(id, m) =>
      m in s.net && m.to == id && m.VoteReturn? && (m.from, m.sent) in s.past[id].pending && m.vresp.term <= n.term
    case LoseVote(id, p, t) => (p, t) in s.past[id].pending
    case AnswerAppend(id, m) => m in s.net && m.to == id && m.AppendCall? && m.areq.term <= n.term
    case LearnCommit(id, m) =>
      && m in s.net && m.to == id && m.AppendCall? && m.areq.term == n.term
      && PrevMatches(n.log, m.areq)
      && Reconcile(n.log, m.areq.prevIndex, m.areq.entries) == n.log
    case RecordAppend(id, m) => m in s.net && m.to == id && m.AppendReturn? && m.aresp.term <= n.term
    case AdvanceCommit(id, k) => n.role == Leader && Committable(c, id, n, k)
    case ApplyEntry(_) => CanApply(c, n)
    case Send(id, p) => n.role == Leader && p in Peers(c, id)
    case ProposeAt(_, _, ticket) => n.role == Leader && ticket !in s.tickets
    case Deregister(_, _) => true
    case Crash(_) => true
  }

  // ---- the effect of each step ----

  ghost function WithNode(s: State, id: NodeId, n: NodeState): State {
    s.(nodes := s.nodes[id := n])
  }

  /** Replace a member by its state after stepping down, and fail its waiters. */
  ghost function WithDeposed(s: State, id: NodeId, n: NodeState): State
    requires id in s.nodes
  {
    WithNode(s, id, n).(outcomes := s.outcomes + map t | t in FailedBy(s.nodes[id]) :: NotLeader)
  }

  ghost function DoTimeout(c: Config, s: State, id: NodeId): State
    requires Shaped(c, s) && id in c.servers
  {
    var n := s.nodes[id];
    var m := StartElection(id, n);
    var p := s.past[id];
    WithNode(s, id, m).(
      net := s.net + set q | q in Peers(c, id) :: VoteCall(q, VoteReqOf(c, id, m)),
      past := s.past[id := p.(ballots := p.ballots[m.term := Ballot(id, n.log)],
                              runs := p.runs[m.term := n.log],
                              pending := p.pending + set q | q in Peers(c, id) :: (q, m.term),
                              tally := {id})])
  }

  ghost function DoAnswerVote(c: Config, s: State, id: NodeId, msg: Message): State
    requires Shaped(c, s) && id in c.servers && msg.VoteCall? && msg.vreq.term <= s.nodes[id].term
  {
    var n := s.nodes[id];
    var (m, resp) := OnVoteReq(c, n, msg.vreq);
    var p := s.past[id];
    WithNode(s, id, m).(
      net := s.net + {VoteReturn(msg.vreq.candidate, id, msg.vreq.term, resp)},
      past := if resp.granted && m.term !in p.ballots
              then s.past[id := p.(ballots := p.ballots[m.term := Ballot(msg.vreq.candidate, n.log)])]
              else s.past)
  }

  ghost function DoCountVote(c: Config, s: State, id: NodeId, msg: Message): State
    requires Shaped(c, s) && id in c.servers && msg.VoteReturn?
  {
    var n := s.nodes[id];
    var m := OnVoteResp(c, id, n, msg.sent, msg.vresp);
    var p := s.past[id];
    var counted := n.role == Candidate && msg.sent == n.term && msg.vresp.granted;
    var tally := if counted then p.tally + {msg.from} else p.tally;
    var elected := counted && m.role == Leader;
    WithNode(s, id, m).(
      past := s.past[id := p.(pending := p.pending - {(msg.from, msg.sent)}, tally := tally,
                              acks := if elected then p.acks[n.term := LastIndex(m.log)] else p.acks)],
      reigns := if elected then s.reigns[n.term := Reign(id, tally, n.log, m.log)] else s.reigns)
  }

  ghost function DoAnswerAppend(c: Config, s: State, id: NodeId, msg: Message): State
    requires Shaped(c, s) && id in c.servers && msg.AppendCall?
  {
    var n := s.nodes[id];
    var req := msg.areq;
    if req.version != PROTOCOL_VERSION || req.clusterId != c.clusterId || req.term < n.term then
      s.(net := s.net + {AppendReturn(req.leader, id, req.term, AppendResp(n.term, false, 0, 0, 0))})
    else
      var (m, resp) := AcceptAppend(n, req);
      var p := s.past[id];
      var known := if req.term in p.acks then p.acks[req.term] else 0;
      WithDeposed(s, id, m).(
        net := s.net + {AppendReturn(req.leader, id, req.term, resp)},
        past := if resp.success && (req.term !in p.acks || resp.matchIndex > known)
                then s.past[id := p.(acks := p.acks[req.term := resp.matchIndex])]
                else s.past)
  }

  ghost function DoAdvanceCommit(c: Config, s: State, id: NodeId, index: nat): State
    requires Shaped(c, s) && id in c.servers
  {
    var n := s.nodes[id];
    WithNode(s, id, n.(commit := index)).(
      commits := if n.term in s.commits && index <= s.commits[n.term].index then s.commits
                 else s.commits[n.term := Commitment(index, Holders(c, id, n, index))])
  }

  ghost function DoApply(c: Config, s: State, id: NodeId): State
    requires Shaped(c, s) && id in c.servers && CanApply(c, s.nodes[id])
  {
    var n := s.nodes[id];
    var k := n.applied + 1;
    WithNode(s, id, ApplyNext(c, n)).(
      outcomes := if k in n.waiters then s.outcomes[n.waiters[k] := Done(NextResult(c, n))] else s.outcomes)
  }

  ghost function DoPropose(c: Config, s: State, id: NodeId, command: Command, ticket: nat): State
    requires Shaped(c, s) && id in c.servers
  {
    var n := s.nodes[id];
    var m := Propose(n, command, ticket);
    var p := s.past[id];
    WithNode(s, id, m).(
      past := s.past[id := p.(acks := p.acks[n.term := LastIndex(m.log)])],
      reigns := if n.term in s.reigns then s.reigns[n.term := s.reigns[n.term].(log := m.log)] else s.reigns,
      tickets := s.tickets[ticket := Ticket(id, n.term, |n.log|, command)])
  }

  ghost function DoObserve(c: Config, s: State, id: NodeId, term: nat): State
    requires Shaped(c, s) && id in c.servers
  {
    WithDeposed(s, id, StepDown(s.nodes[id], term, ""))
  }

  ghost function DoLoseVote(c: Config, s: State, id: NodeId, peer: NodeId, sent: nat): State
    requires Shaped(c, s) && id in c.servers
  {
    s.(past := s.past[id := s.past[id].(pending := s.past[id].pending - {(peer, sent)})])
  }

  ghost function DoCrash(c: Config, s: State, id: NodeId): State
    requires Shaped(c, s) && id in c.servers
  {
    WithNode(s, id, Restart(s.nodes[id])).(past := s.past[id := s.past[id].(pending := {}, tally := {})])
  }

  ghost function Do(c: Config, s: State, a: Action): State
    requires Shaped(c, s) && Enabled(c, s, a)
  {
    var n := s.nodes[a.id];
    match a
    case Timeout(id) => DoTimeout(c, s, id)
    case ObserveTerm(id, m) => DoObserve(c, s, id, TermOf(m))
    case AnswerVote(id, m) => DoAnswerVote(c, s, id, m)
    case CountVote(id, m) => DoCountVote(c, s, id, m)
    case LoseVote(id, p, t) => DoLoseVote(c, s, id, p, t)
    case AnswerAppend(id, m) => DoAnswerAppend(c, s, id, m)
    case LearnCommit(id, m) => WithNode(s, id, FollowerCommit(n, m.areq))
    case RecordAppend(id, m) => WithNode(s, id, OnAppendResp(n, m.from, m.sent, m.aresp))
    case AdvanceCommit(id, k) => DoAdvanceCommit(c, s, id, k)
    case ApplyEntry(id) => DoApply(c, s, id)
    case Send(id, p) => s.(net := s.net + {AppendCall(p, AppendReqOf(c, id, n, p))})
    case ProposeAt(id, command, ticket) => DoPropose(c, s, id, command, ticket)
    case Deregister(id, k) => WithNode(s, id, n.(waiters := n.waiters - {k}))
    case Crash(id) => DoCrash(c, s, id)
  }
}
