/**
  One Raft member as a value: its persisted and volatile fields, the messages it
  exchanges, and what each event does to it.  The class `Node` in RaftServer.dfy
  runs these events in place; the cluster in Cluster.dfy composes them.
 */
module RaftNode {
  import opened Models

  type NodeId = string  // "" stands for "nobody"

  const PROTOCOL_VERSION: int := 1

  /** The static facts every member shares.  `apply` is the injected state machine. */
  datatype Config = Config(
    servers: set<NodeId>,
    quorum: nat,
    clusterId: string,
    init: AppState,
    apply: (AppState, nat, nat, LogEntry) -> Applied)

  /** Two majorities of the members overlap. */
  predicate ConfigOk(c: Config) {
    c.servers != {} && c.quorum == |c.servers| / 2 + 1
  }

  function Peers(c: Config, id: NodeId): set<NodeId> { c.servers - {id} }

  datatype Role = Follower | Candidate | Leader

  datatype NodeState = NodeState(
    // persisted
    term: nat,
    vote: NodeId,
    log: seq<LogEntry>,   // position i holds the entry with index i; 0 is the sentinel
    commit: nat,
    applied: nat,
    app: AppState,
    // volatile
    role: Role,
    leader: NodeId,
    votes: nat,
    nexts: map<NodeId, nat>,
    matches: map<NodeId, nat>,
    waiters: map<nat, nat>)  // log index -> ticket of the waiting proposal

  datatype VoteReq = VoteReq(version: int, clusterId: string, term: nat, candidate: NodeId,
                             lastIndex: nat, lastTerm: nat)
  datatype VoteResp = VoteResp(term: nat, granted: bool)
  datatype AppendReq = AppendReq(version: int, clusterId: string, term: nat, leader: NodeId,
                                 prevIndex: nat, prevTerm: nat, entries: seq<LogEntry>, leaderCommit: nat)
  datatype AppendResp = AppendResp(term: nat, success: bool, matchIndex: nat,
                                   conflictTerm: nat, conflictIndex: nat)

  // ---- the log ----

  function LastIndex(log: seq<LogEntry>): nat {
    if |log| == 0 then 0 else |log| - 1
  }

  function LastTerm(log: seq<LogEntry>): nat {
    if |log| == 0 then 0 else log[|log| - 1].term
  }

  /** Term stored at `index`, or 0 when there is no entry there. */
  function TermAt(log: seq<LogEntry>, index: nat): nat {
    if index < |log| then log[index].term else 0
  }

  /** The entry at position `i` carries its own index, and a term of some election. */
  ghost predicate EntryOk(log: seq<LogEntry>, i: nat)
    requires i < |log|
  {
    log[i].index == i && (i > 0 ==> log[i].term >= 1)
  }

  ghost predicate TermsRise(log: seq<LogEntry>, i: nat, j: nat)
    requires i < |log| && j < |log|
  {
    log[i].term <= log[j].term
  }

  /** A log is contiguous from the sentinel, with terms that never decrease. */
  ghost predicate WellFormed(log: seq<LogEntry>) {
    && |log| >= 1
    && log[0] == SENTINEL
    && (forall i {:trigger EntryOk(log, i)} :: 0 <= i < |log| ==> EntryOk(log, i))
    && (forall i, j {:trigger TermsRise(log, i, j)} :: 0 <= i <= j < |log| ==> TermsRise(log, i, j))
  }

  /** A log described by its last term and index is at least as current as `log`. */
  predicate UpToDate(lastTerm: nat, lastIndex: nat, log: seq<LogEntry>)
  {
    if lastTerm != LastTerm(log) then lastTerm > LastTerm(log) else lastIndex >= LastIndex(log)
  }

  /** Entry `i` of a batch that starts after `prev` is already in the log. */
  predicate Holds(log: seq<LogEntry>, prev: nat, entries: seq<LogEntry>, i: nat)
    requires i < |entries|
  {
    prev + 1 + i < |log| && log[prev + 1 + i].term == entries[i].term
  }

  /** How many leading `entries` are already present after `prev`, counting from `i`. */
  function Present(log: seq<LogEntry>, prev: nat, entries: seq<LogEntry>, i: nat): (k: nat)
    requires i <= |entries|
    requires prev + i < |log|
    ensures i <= k <= |entries|
    ensures prev + k < |log|
    ensures forall x :: i <= x < k ==> Holds(log, prev, entries, x)
    ensures k < |entries| ==> !Holds(log, prev, entries, k)
    decreases |entries| - i
  {
    if i < |entries| && Holds(log, prev, entries, i) then Present(log, prev, entries, i + 1) else i
  }

  /** The follower's log once `entries` have been merged in after `prev`. */
  function Reconcile(log: seq<LogEntry>, prev: nat, entries: seq<LogEntry>): (merged: seq<LogEntry>)
    requires prev < |log|
  {
    var k := Present(log, prev, entries, 0);
    if k == |entries| then log else log[..prev + 1 + k] + entries[k..]
  }

  /** Lowest index of the run of `term` entries that ends at `from`. */
  function RunStart(log: seq<LogEntry>, from: nat, term: nat): (k: nat)
    ensures k <= from
    ensures from >= 1 ==> k >= 1
    ensures forall i :: k <= i < from ==> i < |log| && log[i].term == term
    ensures term != 0 && k > 1 ==> k - 1 >= |log| || log[k - 1].term != term
  {
    if term != 0 && from > 1 && from - 1 < |log| && log[from - 1].term == term
    then RunStart(log, from - 1, term) else from
  }

  /** Highest index at or below `from` with the given term, or 0. */
  function LastWithTerm(log: seq<LogEntry>, from: nat, term: nat): (k: nat)
    ensures k <= from
    ensures from < |log| ==> k == 0 || log[k].term == term
    ensures from < |log| ==> forall i :: k < i <= from ==> log[i].term != term
  {
    if from == 0 || from >= |log| then 0
    else if log[from].term == term then from
    else LastWithTerm(log, from - 1, term)
  }

  // ---- role changes ----

  /** Step down, persisting a new term with a cleared vote when the term rises. */
  function StepDown(n: NodeState, term: nat, leader: NodeId): NodeState {
    var m := if term > n.term then n.(term := term, vote := "") else n;
    m.(role := Follower, leader := leader, waiters := if n.role == Leader then map[] else n.waiters)
  }

  /** Tickets whose proposers are told that this node no longer leads. */
  function FailedBy(n: NodeState): set<nat> {
    if n.role == Leader then n.waiters.Values else {}
  }

  function StartElection(id: NodeId, n: NodeState): NodeState {
    n.(term := n.term + 1, vote := id, role := Candidate, leader := "", votes := 1)
  }

  function VoteReqOf(c: Config, id: NodeId, n: NodeState): VoteReq
  {
    VoteReq(PROTOCOL_VERSION, c.clusterId, n.term, id, LastIndex(n.log), LastTerm(n.log))
  }

  function Uniform(ps: set<NodeId>, v: nat): map<NodeId, nat> { map p | p in ps :: v }

  /** Assume leadership: no peer is known to hold anything yet. */
  function TakeOffice(c: Config, id: NodeId, n: NodeState): NodeState {
    n.(role := Leader, leader := id,
       nexts := Uniform(Peers(c, id), LastIndex(n.log) + 1),
       matches := Uniform(Peers(c, id), 0))
  }

  /** Take leadership of the current term: reset progress and append the no-op. */
  function Promote(c: Config, id: NodeId, n: NodeState): NodeState
  {
    var last, m := LastIndex(n.log), TakeOffice(c, id, n);
    m.(nexts := m.nexts[id := last + 2], log := n.log + [LogEntry(last + 1, n.term, Noop)])
  }

  // ---- RequestVote ----

  predicate Grants(n: NodeState, req: VoteReq)
  {
    && (n.vote == "" || n.vote == req.candidate)
    && UpToDate(req.lastTerm, req.lastIndex, n.log)
  }

  /** The vote itself, once the request's term has been adopted. */
  function CastVote(n: NodeState, req: VoteReq): (NodeState, VoteResp)
  {
    if Grants(n, req) then (n.(vote := req.candidate), VoteResp(n.term, true))
    else (n, VoteResp(n.term, false))
  }

  function OnVoteReq(c: Config, n: NodeState, req: VoteReq): (NodeState, VoteResp)
  {
    if req.version != PROTOCOL_VERSION || req.clusterId != c.clusterId || req.term < n.term then
      (n, VoteResp(n.term, false))
    else
      CastVote(if req.term > n.term then StepDown(n, req.term, "") else n, req)
  }

  /** Count one vote reply.  `sent` is the election term of the request. */
  function OnVoteResp(c: Config, id: NodeId, n: NodeState, sent: nat, resp: VoteResp): NodeState
  {
    if resp.term > n.term then StepDown(n, resp.term, "")
    else if n.role != Candidate || sent != n.term || !resp.granted then n
    else
      var m := n.(votes := n.votes + 1);
      if m.votes >= c.quorum then Promote(c, id, m) else m
  }

  // ---- AppendEntries ----

  function AppendReqOf(c: Config, id: NodeId, n: NodeState, peer: NodeId): AppendReq
  {
    var next := if peer in n.nexts && n.nexts[peer] >= 1 then n.nexts[peer] else 1;
    AppendReq(PROTOCOL_VERSION, c.clusterId, n.term, id, next - 1, TermAt(n.log, next - 1),
              if next <= LastIndex(n.log) then n.log[next..] else [], n.commit)
  }

  /** The follower holds the entry that precedes the request's entries. */
  predicate PrevMatches(log: seq<LogEntry>, req: AppendReq) {
    req.prevIndex < |log| && (req.prevIndex == 0 || log[req.prevIndex].term == req.prevTerm)
  }

  /** The hint that tells the leader how far to back up. */
  function Conflict(n: NodeState, req: AppendReq): AppendResp
  {
    if req.prevIndex >= |n.log| then AppendResp(n.term, false, 0, 0, |n.log|)
    else
      var t := n.log[req.prevIndex].term;
      AppendResp(n.term, false, 0, t, RunStart(n.log, req.prevIndex, t))
  }

  /** Recognize the leader of this term and repair the log, or answer with a hint. */
  function AcceptAppend(n: NodeState, req: AppendReq): (NodeState, AppendResp)
  {
    var m := StepDown(n, req.term, req.leader);
    if !PrevMatches(m.log, req) then (m, Conflict(m, req))
    else
      (m.(log := Reconcile(m.log, req.prevIndex, req.entries)),
       AppendResp(m.term, true, req.prevIndex + |req.entries|, 0, 0))
  }

  /** Commit what the leader reports, bounded by what the request covered. */
  function FollowerCommit(n: NodeState, req: AppendReq): NodeState {
    var bound := req.prevIndex + |req.entries|;
    var target := if req.leaderCommit < bound then req.leaderCommit else bound;
    if target > n.commit then n.(commit := target) else n
  }

  /** Where to resume after a refusal: past the leader's last entry of the conflicting
      term if it has one, else where the follower's run of that term starts. */
  function NextAfter(log: seq<LogEntry>, resp: AppendResp): nat {
    var last := if resp.conflictTerm == 0 then 0 else LastWithTerm(log, LastIndex(log), resp.conflictTerm);
    var next := if last > 0 then last + 1 else resp.conflictIndex;
    if next < 1 then 1 else next
  }

  function BackUp(n: NodeState, peer: NodeId, resp: AppendResp): NodeState
  {
    n.(nexts := n.nexts[peer := NextAfter(n.log, resp)])
  }

  /** Record one append reply, before the commit index is reconsidered. */
  function OnAppendResp(n: NodeState, peer: NodeId, sent: nat, resp: AppendResp): NodeState
  {
    if resp.term > n.term then StepDown(n, resp.term, "")
    else if n.role != Leader || sent != n.term then n
    else if resp.success then
      if resp.matchIndex > (if peer in n.matches then n.matches[peer] else 0) then
        n.(matches := n.matches[peer := resp.matchIndex], nexts := n.nexts[peer := resp.matchIndex + 1])
      else n
    else BackUp(n, peer, resp)
  }

  // ---- commit and apply ----

  /** Members whose log is known to reach `index`. */
  function Holders(c: Config, id: NodeId, n: NodeState, index: nat): set<NodeId> {
    set p | p in c.servers &&
            (if p == id then index < |n.log| else p in n.matches && index <= n.matches[p])
  }

  /** `index` may be committed by counting: a majority holds it and it is of this term. */
  predicate Committable(c: Config, id: NodeId, n: NodeState, index: nat) {
    && n.commit < index < |n.log|
    && n.log[index].term == n.term
    && |Holders(c, id, n, index)| >= c.quorum
  }

  /** Apply the next committed entry. */
  predicate CanApply(c: Config, n: NodeState) {
    && n.applied < n.commit
    && n.applied + 1 < |n.log|
    && c.apply(n.app, n.applied + 1, n.log[n.applied + 1].term, n.log[n.applied + 1]).Applied?
  }

  function NextResult(c: Config, n: NodeState): Result
    requires CanApply(c, n)
  {
    c.apply(n.app, n.applied + 1, n.log[n.applied + 1].term, n.log[n.applied + 1]).result
  }

  function ApplyNext(c: Config, n: NodeState): NodeState
    requires CanApply(c, n)
  {
    var k := n.applied + 1;
    n.(applied := k, app := c.apply(n.app, k, n.log[k].term, n.log[k]).state, waiters := n.waiters - {k})
  }

  /** The state machine folded over entries 1 to k of a log; None if an entry fails to apply. */
  function Replay(c: Config, log: seq<LogEntry>, k: nat): Option<AppState>
    requires k < |log|
  {
    if k == 0 then Some(c.init)
    else
      match Replay(c, log, k - 1)
      case None => None
      case Some(app) =>
        match c.apply(app, k, log[k].term, log[k])
        case Applied(state, _) => Some(state)
        case Failed => None
  }

  // ---- proposals and restart ----

  function Append(n: NodeState, payload: Payload): NodeState
  {
    n.(log := n.log + [LogEntry(|n.log|, n.term, payload)])
  }

  function Propose(n: NodeState, command: Command, ticket: nat): NodeState
  {
    Append(n, Carries(command)).(waiters := n.waiters[|n.log| := ticket])
  }

  /** What a crash leaves: only the persisted fields survive. */
  function Restart(n: NodeState): NodeState {
    n.(role := Follower, leader := "", votes := 0, nexts := map[], matches := map[], waiters := map[])
  }

  function InitNode(c: Config): NodeState {
    NodeState(0, "", [SENTINEL], 0, 0, c.init, Follower, "", 0, map[], map[], map[])
  }
}
