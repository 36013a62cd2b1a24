/**
  One member as the program runs it: an object that the event loop mutates, with
  its fields cached from the store and every durable write made before the reply
  that depends on it.  Each handler performs exactly the effect that Handlers.dfy
  gives it, so by the lemmas there it is a path of cluster steps.
 */
module RaftServer {
  import opened Models
  import opened RaftNode
  import opened Cluster
  import ClusterSafety
  import opened CommitChoice
  import opened Handlers
  import opened Durability
  import opened RaftStore
  import Encoding

  const LIMIT: nat := Encoding.U64_LIMIT

  lemma ValuesWithout(m: map<nat, nat>, i: nat)
    requires i in m
    ensures m.Values == (m - {i}).Values + {m[i]}
  {
    var rest := m - {i};
    forall v | v in m.Values ensures v in rest.Values + {m[i]} {
      var k :| k in m && m[k] == v;
      if k != i { assert k in rest && rest[k] == v; }
    }
    forall v | v in rest.Values ensures v in m.Values {
      var k :| k in rest && rest[k] == v;
      assert k in m && m[k] == v;
    }
  }

  lemma FailOne(answers: map<nat, Outcome>, ts: set<nat>, t: nat)
    ensures (answers + Failing(ts))[t := NotLeader] == answers + Failing(ts + {t})
  {
  }

  lemma FailNone(answers: map<nat, Outcome>)
    ensures answers + Failing({}) == answers
  {
  }

  function Members(ps: seq<NodeId>): set<NodeId> { set p | p in ps }

  /** A vote reply, or the failure of the call. */
  function OnVoteReturn(c: Config, id: NodeId, n: NodeState, sent: nat, reply: Option<VoteResp>): Effect {
    if reply.None? then Idle(n) else OnVoteReply(c, id, n, sent, reply.value)
  }

  /** Where a merge cuts the log: at the first entry that conflicts, or 0 for nowhere. */
  function CutAt(log: seq<LogEntry>, prev: nat, entries: seq<LogEntry>, k: nat): nat {
    if k < |entries| && prev + 1 + k < |log| then prev + 1 + k else 0
  }

  /** Cutting and appending in the bucket merges the sequences. */
  lemma OverwriteRepairs(m: LogBucket, log: seq<LogEntry>, prev: nat, entries: seq<LogEntry>)
    requires LogKeyed(m, log) && prev < |log| < LIMIT && Continue(entries, prev + 1)
    ensures var k := Present(log, prev, entries, 0); var cut := CutAt(log, prev, entries, k);
            && cut < LIMIT && IndexesFit(entries[k..])
            && LogKeyed(PutAll(if cut >= 1 then Below(m, cut) else m, entries[k..]), Reconcile(log, prev, entries))
  {
    var k := Present(log, prev, entries, 0);
    var cut := CutAt(log, prev, entries, k);
    assert Continue(entries[k..], prev + 1 + k);
    if cut >= 1 {
      BelowCuts(m, log, cut);
      PutAppends(Below(m, cut), log[..cut], entries[k..]);
    } else if k < |entries| {
      assert log[..prev + 1 + k] == log;
      PutAppends(m, log, entries[k..]);
    }
  }

  /** Draining n, with `start` said and h written, has got as far as m, with `now` said and ws written. */
  ghost predicate DrainedTo(
    c: Config, n: NodeState, start: Said, h: seq<Write>, m: NodeState, now: Said, ws: seq<Write>) {
    && Drain(c, n).node == Drain(c, m).node
    && start.sent == now.sent && start.told + Drain(c, n).told == now.told + Drain(c, m).told
    && h + DrainWrites(c, n, start) == ws + DrainWrites(c, m, now)
  }

  lemma DrainedOne(c: Config, n: NodeState, start: Said, h: seq<Write>, m: NodeState, now: Said, ws: seq<Write>)
    requires DrainedTo(c, n, start, h, m, now, ws) && CanApply(c, m)
    ensures DrainedTo(c, n, start, h, ApplyNext(c, m), Telling(now, AnswerNext(c, m)),
                      ws + [Write(OnDisk(ApplyNext(c, m)), now)])
  {
    var next := ApplyNext(c, m);
    ToldInTurn(now.told, AnswerNext(c, m), Drain(c, next).told);
    var w, rest := [Write(OnDisk(next), now)], DrainWrites(c, next, Telling(now, AnswerNext(c, m)));
    assert ws + (w + rest) == ws + w + rest;
  }

  lemma DrainedAll(c: Config, n: NodeState, start: Said, h: seq<Write>, m: NodeState, now: Said, ws: seq<Write>)
    requires DrainedTo(c, n, start, h, m, now, ws) && !CanApply(c, m)
    ensures Drain(c, n).node == m && now == Telling(start, Drain(c, n).told) && h + DrainWrites(c, n, start) == ws
  {
    assert now.told + map[] == now.told;
    assert ws + [] == ws;
  }

  function OnAppendReturn(
    c: Config, id: NodeId, n: NodeState, peers: seq<NodeId>, from: NodeId, sent: nat, reply: Option<AppendResp>): Effect
    requires 1 <= c.quorum <= |peers| + 1
  {
    if reply.None? then Idle(n) else OnAppendReply(c, id, n, peers, from, sent, reply.value)
  }

  /** Handling a leader's append call is accepting it, and learning if that succeeds. */
  lemma FollowIs(c: Config, id: NodeId, n: NodeState, req: AppendReq)
    requires Genuine(c, req.version, req.clusterId) && req.term >= n.term
    ensures var (m, resp) := AcceptAppend(n, req);
            var e := OnAppendCall(c, id, n, req);
            if resp.success
            then e.node == Learn(c, m, req).node && e.told == Deposed(n) + Learn(c, m, req).told
            else e.node == m && e.told == Deposed(n)
  {
  }

  lemma WrittenInTurn(h: seq<Write>, a: seq<Write>, b: seq<Write>)
    ensures h + a + b == h + (a + b)
  {
  }

  lemma FollowWritesAre(c: Config, n: NodeState, req: AppendReq, said: Said, h: seq<Write>)
    requires Genuine(c, req.version, req.clusterId) && req.term >= n.term
    ensures var (m, resp) := AcceptAppend(n, req);
            var later := Telling(said, Deposed(n));
            var ws := h + YieldWrites(n, req.term, said) + RepairWrites(n, req, later);
            h + AppendCallWrites(c, n, req, said) == if resp.success then ws + LearnWrites(c, m, req, later) else ws
  {
    var (m, resp) := AcceptAppend(n, req);
    var later := Telling(said, Deposed(n));
    var a, b := YieldWrites(n, req.term, said), RepairWrites(n, req, later);
    WrittenInTurn(h, a, b);
    if resp.success {
      WrittenInTurn(h, a + b, LearnWrites(c, m, req, later));
      WrittenInTurn(a, b, LearnWrites(c, m, req, later));
    } else {
      WrittenInTurn(a, b, []);
      assert b + [] == b;
    }
  }

  /** The one message of handling an append call is its reply. */
  lemma ReplyIs(c: Config, id: NodeId, n: NodeState, req: AppendReq)
    requires Genuine(c, req.version, req.clusterId) && req.term >= n.term
    ensures OnAppendCall(c, id, n, req).sent == {AppendReturn(req.leader, id, req.term, AcceptAppend(n, req).1)}
  {
    LearnSendsNothing(c, AcceptAppend(n, req).0, req);
  }

  lemma AdvanceIs(c: Config, id: NodeId, n: NodeState, peers: seq<NodeId>)
    requires 1 <= c.quorum <= |peers| + 1 && ChooseCommit(c, n, peers).Some?
    ensures var drained := Drain(c, n.(commit := ChooseCommit(c, n, peers).value));
            Advance(c, id, n, peers) == Effect(drained.node, Replicate(c, id, drained.node).sent, drained.told)
  {
    DrainSendsNothing(c, n.(commit := ChooseCommit(c, n, peers).value));
  }

  /** In every run, a request of a member is one that `HandleAppendEntries` accepts. */
  lemma RequestsContinue(c: Config, run: seq<State>, id: NodeId, req: AppendReq)
    requires ClusterSafety.IsRun(c, run) && AppendCall(id, req) in run[|run| - 1].net
    requires req.prevIndex + |req.entries| + 1 < LIMIT
    ensures Continue(req.entries, req.prevIndex + 1)
  {
    forall j | 0 <= j < |req.entries| ensures req.entries[j].index == req.prevIndex + 1 + j {
      CallsContinueTheLog(c, run, |run| - 1, AppendCall(id, req), j);
    }
  }

  /** The cluster id a node goes by: the stored one, or a configured one if none is stored.
      None if there is neither, or they differ. */
  function Pinned(stored: string, configured: string): Option<string> {
    if stored == "" then if configured == "" then None else Some(configured)
    else if configured != "" && stored != configured then None
    else Some(stored)
  }

  // ---- durable writes ----

  /** A store image holds this disk. */
  ghost predicate Shows(image: Image, d: Disk) {
    && image.currentTerm == d.term && image.votedFor == d.vote && LogKeyed(image.raftLog, d.log)
    && image.commitIndex == d.commit && image.lastApplied == d.applied && image.app == d.app
  }

  /** The store's transactions, one by one, left these disks. */
  ghost predicate Recorded(history: seq<Image>, writes: seq<Write>) {
    |history| == |writes| && forall i :: 0 <= i < |writes| ==> Shows(history[i], writes[i].disk)
  }

  lemma RecordedMore(history: seq<Image>, writes: seq<Write>, image: Image, w: Write)
    requires Recorded(history, writes) && Shows(image, w.disk)
    ensures Recorded(history + [image], writes + [w])
  {
  }

  class Node {
    const c: Config
    const id: NodeId
    const peers: seq<NodeId>
    const store: Store

    var clusterID: string
    var role: Role
    var currentTerm: nat
    var votedFor: NodeId
    var leaderID: NodeId
    var commitIndex: nat
    var lastApplied: nat
    var lastLogIndex: nat
    var lastLogTerm: nat
    var nextIndex: map<NodeId, nat>
    var matchIndex: map<NodeId, nat>
    var votesGranted: nat
    var waiters: map<nat, nat>

    /** Requests handed to the transport, and what waiting proposers have been told. */
    var outbox: set<Message>
    var answers: map<nat, Outcome>

    ghost var Log: seq<LogEntry>

    /** Every durable write so far, with what had been said before it. */
    ghost var Writes: seq<Write>

    /** The node knows its peers, and how many votes make a majority. */
    ghost predicate Configured() { Lists(c, id, peers) && 1 <= c.quorum <= |peers| + 1 }

    ghost predicate Wired()
      reads this, store
    {
      && LogKeyed(store.raftLog, Log) && Log[0] == SENTINEL && |Log| < LIMIT && store.commitIndex < LIMIT
      && Recorded(store.History, Writes)
    }

    /** The cached fields are what the store holds, and the log's end is where it says. */
    ghost predicate Valid()
      reads this, store
    {
      && Wired() && Cached() && clusterID == c.clusterId
      && lastLogIndex == LastIndex(Log) && lastLogTerm == LastTerm(Log)
    }

    ghost function State(): NodeState
      reads this, store
    {
      NodeState(currentTerm, votedFor, Log, commitIndex, lastApplied, store.app,
                role, leaderID, votesGranted, nextIndex, matchIndex, waiters)
    }

    ghost function SoFar(): Said
      reads this
    {
      Said(outbox, answers)
    }

    /** The cached fields are what the store holds. */
    ghost predicate Cached()
      reads this, store
    {
      && currentTerm == store.currentTerm && votedFor == store.votedFor
      && commitIndex == store.commitIndex && lastApplied == store.lastApplied
    }

    /** Note down a durable write; `before` is the history without it. */
    ghost method NoteWrite(before: seq<Image>)
      requires LogKeyed(store.raftLog, Log) && Cached()
      requires Recorded(before, Writes) && store.History == before + [store.Now()]
      modifies `Writes
      ensures Recorded(store.History, Writes) && Writes == old(Writes) + [Write(OnDisk(State()), SoFar())]
    {
      var w := Write(OnDisk(State()), SoFar());
      RecordedMore(before, Writes, store.Now(), w);
      Writes := Writes + [w];
    }

    /** A node over a store that holds `log`, knowing the other members; recovery comes next. */
    constructor (c: Config, id: NodeId, configured: string, members: seq<NodeId>, store: Store,
                 ghost log: seq<LogEntry>, ghost writes: seq<Write>)
      requires ConfigOk(c) && id in c.servers && forall p :: p in members <==> p in c.servers
      requires forall i, j :: 0 <= i < j < |members| ==> members[i] != members[j]
      requires LogKeyed(store.raftLog, log) && log[0] == SENTINEL && |log| < LIMIT && store.commitIndex < LIMIT
      requires Recorded(store.History, writes)
      ensures this.c == c && this.id == id && this.store == store && clusterID == configured
      ensures Wired() && Configured() && Log == log && Writes == writes && Blank()
      ensures outbox == {} && answers == map[]
    {
      var others: seq<NodeId> := [];
      for i := 0 to |members|
        invariant forall p :: p in others <==> p in members[..i] && p != id
        invariant forall j, k :: 0 <= j < k < |others| ==> others[j] != others[k]
      {
        assert members[i] !in members[..i];
        if members[i] != id { others := others + [members[i]]; }
      }
      assert members[..|members|] == members;
      assert Lists(c, id, others);
      QuorumFits(c, id, others);
      this.c, this.id, this.peers, this.store, Log, Writes := c, id, others, store, log, writes;
      clusterID, role, leaderID, votesGranted := configured, Follower, "", 0;
      nextIndex, matchIndex, waiters, outbox, answers := map[], map[], map[], {}, map[];
    }

    /** Nothing volatile yet. */
    ghost predicate Blank()
      reads this
    {
      && role == Follower && leaderID == "" && votesGranted == 0
      && nextIndex == map[] && matchIndex == map[] && waiters == map[]
    }

    // ---- waiters ----

    method FailWaiters()
      modifies `waiters, `answers
      ensures waiters == map[] && answers == old(answers) + Failing(old(waiters).Values)
    {
      ghost var told: set<nat> := {};
      while waiters != map[]
        invariant old(waiters).Values == waiters.Values + told
        invariant answers == old(answers) + Failing(told)
        decreases |waiters|
      {
        var i :| i in waiters;
        FailOne(old(answers), told, waiters[i]);
        ValuesWithout(waiters, i);
        told := told + {waiters[i]};
        answers := answers[waiters[i] := NotLeader];
        waiters := waiters - {i};
      }
      assert old(waiters).Values == told;
    }

    // ---- transitions ----

    /** Step down.  A higher term is durable, with the vote cleared, before anything else happens. */
    method BecomeFollower(term: nat, leader: NodeId)
      requires Valid()
      modifies this, store
      ensures Valid() && State() == Yield(old(State()), term, leader).node
      ensures SoFar() == Saying(old(SoFar()), Yield(old(State()), term, leader))
      ensures Writes == old(Writes) + YieldWrites(old(State()), term, old(SoFar()))
    {
      if term > currentTerm {
        ghost var before := store.History;
        store.SetTermAndVote(term, "");
        currentTerm := term;
        votedFor := "";
        NoteWrite(before);
      }
      var wasLeader := role == Leader;
      role := Follower;
      leaderID := leader;
      if wasLeader { FailWaiters(); } else { FailNone(answers); }
    }

    method BecomeCandidate()
      requires Valid()
      modifies `currentTerm, `votedFor, `role, `leaderID, `Writes
      modifies store`currentTerm, store`votedFor, store`History
      ensures currentTerm == store.currentTerm == old(currentTerm) + 1 && votedFor == store.votedFor == id
      ensures role == Candidate && leaderID == ""
      ensures Recorded(store.History, Writes) && Writes == old(Writes) + [Write(OnDisk(State()), SoFar())]
    {
      var newTerm := currentTerm + 1;
      ghost var before := store.History;
      store.SetTermAndVote(newTerm, id);
      currentTerm := newTerm;
      votedFor := id;
      NoteWrite(before);
      role := Candidate;
      leaderID := "";
    }

    method RequestVotes(req: VoteReq)
      requires Configured()
      modifies `outbox
      ensures outbox == old(outbox) + set p | p in Peers(c, id) :: VoteCall(p, req)
    {
      for i := 0 to |peers|
        invariant outbox == old(outbox) + set j | 0 <= j < i :: VoteCall(peers[j], req)
      {
        outbox := outbox + {VoteCall(peers[i], req)};
      }
      assert (set j | 0 <= j < |peers| :: VoteCall(peers[j], req)) == set p | p in Peers(c, id) :: VoteCall(p, req);
    }

    method StandForElection()
      requires Valid()
      modifies `currentTerm, `votedFor, `role, `leaderID, `votesGranted, `Writes
      modifies store`currentTerm, store`votedFor, store`History
      ensures Valid() && State() == StartElection(id, old(State()))
      ensures Writes == old(Writes) + [Write(OnDisk(State()), SoFar())]
    {
      BecomeCandidate();
      votesGranted := 1;
    }

    /** The election timer fires. */
    method OnElectionTimeout()
      requires Configured() && Valid()
      modifies this, store
      ensures Valid() && State() == OnTimeout(c, id, old(State())).node
      ensures SoFar() == Saying(old(SoFar()), OnTimeout(c, id, old(State())))
      ensures Writes == old(Writes) + TimeoutWrites(id, old(State()), old(SoFar()))
    {
      if role == Leader { return; }
      StandForElection();
      RequestVotes(VoteReq(PROTOCOL_VERSION, clusterID, currentTerm, id, lastLogIndex, lastLogTerm));
    }

    // ---- RequestVote ----

    method PersistVote(candidate: NodeId)
      requires Valid()
      modifies this`votedFor, store`votedFor, store`History, `Writes
      ensures votedFor == store.votedFor == candidate
      ensures Recorded(store.History, Writes) && Writes == old(Writes) + [Write(OnDisk(State()), SoFar())]
    {
      ghost var before := store.History;
      store.SetVotedFor(candidate);
      votedFor := candidate;
      NoteWrite(before);
    }

    /** Vote, durably, unless the vote is taken or the candidate's log is behind. */
    method VoteOn(req: VoteReq) returns (granted: bool)
      requires Valid()
      modifies `votedFor, store`votedFor, store`History, `Writes
      ensures Valid() && (State(), VoteResp(currentTerm, granted)) == CastVote(old(State()), req)
      ensures Writes == old(Writes) + if granted then [Write(OnDisk(State()), SoFar())] else []
    {
      var alreadyVoted := votedFor != "" && votedFor != req.candidate;
      granted := !alreadyVoted && UpToDateHere(req.lastTerm, req.lastIndex);
      if granted { PersistVote(req.candidate); }
    }

    method HandleRequestVote(req: VoteReq) returns (resp: VoteResp)
      requires Valid()
      modifies this, store
      ensures var e := OnVoteCall(c, id, old(State()), req);
              && Valid() && State() == e.node && outbox == old(outbox) && answers == old(answers) + e.told
              && e.sent == {VoteReturn(req.candidate, id, req.term, resp)}
      ensures Writes == old(Writes) + VoteCallWrites(c, old(State()), req, old(SoFar()))
    {
      resp := VoteResp(currentTerm, false);
      if req.version != PROTOCOL_VERSION || req.clusterId != clusterID { return; }
      if req.term < currentTerm { return; }
      if req.term > currentTerm { BecomeFollower(req.term, ""); }
      var granted := VoteOn(req);
      resp := VoteResp(currentTerm, granted);
    }

    predicate UpToDateHere(term: nat, index: nat)
      requires Valid()
      reads this, store
      ensures UpToDateHere(term, index) == UpToDate(term, index, Log)
    {
      if term != lastLogTerm then term > lastLogTerm else index >= lastLogIndex
    }

    // ---- replication ----

    /** Everything from a peer's nextIndex on, read back from the store. */
    method BuildRequest(peer: NodeId) returns (req: AppendReq)
      requires Valid()
      ensures req == AppendReqOf(c, id, State(), peer)
    {
      var next := if peer in nextIndex then nextIndex[peer] else 0;
      if next < 1 { next := 1; }
      var prevIndex, prevTerm := next - 1, 0;
      if 0 < prevIndex < LIMIT {
        var e := store.Entry(prevIndex);
        if e.Some? { prevTerm := e.value.term; }
      }
      assert prevTerm == TermAt(Log, prevIndex);
      var entries: seq<LogEntry> := [];
      if next <= lastLogIndex {
        entries := store.Entries(next, lastLogIndex, Log);
        RangeToEnd(Log, next);
      }
      req := AppendReq(PROTOCOL_VERSION, clusterID, currentTerm, id, prevIndex, prevTerm, entries, commitIndex);
    }

    method ReplicateToPeer(peer: NodeId)
      requires Valid() && role == Leader
      modifies `outbox
      ensures outbox == old(outbox) + {AppendCall(peer, AppendReqOf(c, id, State(), peer))}
    {
      var req := BuildRequest(peer);
      outbox := outbox + {AppendCall(peer, req)};
    }

    method ReplicateToAll()
      requires Configured() && Valid()
      modifies `outbox
      ensures outbox == old(outbox) + Replicate(c, id, State()).sent
    {
      if role != Leader { return; }
      ghost var n := State();
      for i := 0 to |peers|
        invariant Valid() && State() == n
        invariant outbox == old(outbox) + set j | 0 <= j < i :: AppendCall(peers[j], AppendReqOf(c, id, n, peers[j]))
      {
        ReplicateToPeer(peers[i]);
      }
      assert (set j | 0 <= j < |peers| :: AppendCall(peers[j], AppendReqOf(c, id, n, peers[j])))
          == set p | p in Peers(c, id) :: AppendCall(p, AppendReqOf(c, id, n, p));
    }

    // ---- becoming leader ----

    /** Append one entry at the end of the log and remember the new end. */
    method AppendLocal(payload: Payload)
      requires Valid() && |Log| + 1 < LIMIT
      modifies `lastLogIndex, `lastLogTerm, `Log, store`raftLog, store`History, `Writes
      ensures Valid() && Log == old(Log) + [LogEntry(|old(Log)|, currentTerm, payload)]
      ensures Recorded(store.History, Writes) && Writes == old(Writes) + [Write(OnDisk(State()), SoFar())]
    {
      var entry := LogEntry(lastLogIndex + 1, currentTerm, payload);
      PutAppends(store.raftLog, Log, [entry]);
      ghost var before := store.History;
      store.AppendEntries([entry]);
      lastLogIndex, lastLogTerm := entry.index, entry.term;
      Log := Log + [entry];
      NoteWrite(before);
    }

    static method InitialProgress(peers: seq<NodeId>, next: nat)
      returns (nexts: map<NodeId, nat>, matches: map<NodeId, nat>)
      ensures nexts == Uniform(Members(peers), next) && matches == Uniform(Members(peers), 0)
    {
      nexts, matches := map[], map[];
      for i := 0 to |peers|
        invariant nexts == Uniform(Members(peers[..i]), next) && matches == Uniform(Members(peers[..i]), 0)
      {
        assert Members(peers[..i + 1]) == Members(peers[..i]) + {peers[i]};
        nexts := nexts[peers[i] := next];
        matches := matches[peers[i] := 0];
      }
      assert peers[..|peers|] == peers;
    }

    method BecomeLeader()
      requires Configured() && Valid()
      modifies `role, `leaderID, `nextIndex, `matchIndex
      ensures State() == TakeOffice(c, id, old(State()))
    {
      role := Leader;
      leaderID := id;
      nextIndex, matchIndex := InitialProgress(peers, lastLogIndex + 1);
      assert Members(peers) == Peers(c, id);
    }

    /** Lead the current term: progress is reset and the no-op appended. */
    method TakeLeadership()
      requires Configured() && Valid() && |Log| + 1 < LIMIT
      modifies `role, `leaderID, `nextIndex, `matchIndex, `lastLogIndex, `lastLogTerm, `Log, `Writes
      modifies store`raftLog, store`History
      ensures Valid() && State() == Promote(c, id, old(State()))
      ensures Writes == old(Writes) + [Write(OnDisk(State()), SoFar())]
    {
      BecomeLeader();
      AppendLocal(Noop);
      nextIndex := nextIndex[id := lastLogIndex + 1];
    }

    method PromoteToLeader()
      requires Configured() && Valid() && |Log| + 1 < LIMIT
      modifies `role, `leaderID, `nextIndex, `matchIndex, `lastLogIndex, `lastLogTerm, `Log, `outbox, `Writes
      modifies store`raftLog, store`History
      ensures Valid() && State() == Promote(c, id, old(State()))
      ensures Writes == old(Writes) + [Write(OnDisk(State()), old(SoFar()))]
      ensures outbox == old(outbox) + Replicate(c, id, State()).sent
    {
      TakeLeadership();
      ReplicateToAll();
    }

    /** A reply to our vote request; None when the call failed. */
    method HandleVoteResponse(sent: nat, reply: Option<VoteResp>)
      requires Configured() && Valid() && |Log| + 1 < LIMIT
      modifies this, store
      ensures Valid() && State() == OnVoteReturn(c, id, old(State()), sent, reply).node
      ensures SoFar() == Saying(old(SoFar()), OnVoteReturn(c, id, old(State()), sent, reply))
      ensures Writes == old(Writes) +
                        if reply.None? then []
                        else VoteReplyWrites(c, id, old(State()), sent, reply.value, old(SoFar()))
    {
      if reply.None? { return; }
      var resp := reply.value;
      if resp.term > currentTerm {
        BecomeFollower(resp.term, "");
        return;
      }
      if role != Candidate || sent != currentTerm { return; }
      if resp.granted { CountVote(); }
    }

    /** One more vote; a majority makes this node the leader. */
    method CountVote()
      requires Configured() && Valid() && |Log| + 1 < LIMIT
      modifies `votesGranted, `role, `leaderID, `nextIndex, `matchIndex, `lastLogIndex, `lastLogTerm, `Log, `outbox
      modifies `Writes, store`raftLog, store`History
      ensures Valid() && State() == Count(c, id, old(State())).node
      ensures outbox == old(outbox) + Count(c, id, old(State())).sent
      ensures Writes == old(Writes) + CountWrites(c, id, old(State()), old(SoFar()))
    {
      AddVote();
      if votesGranted >= c.quorum { PromoteToLeader(); }
    }

    method AddVote()
      requires Valid()
      modifies `votesGranted
      ensures Valid() && State() == old(State()).(votes := old(votesGranted) + 1)
    {
      votesGranted := votesGranted + 1;
    }

    // ---- AppendEntries ----

    method FirstIndexOfTerm(from: nat, term: nat) returns (k: nat)
      requires Valid() && from < LIMIT
      ensures k == RunStart(Log, from, term)
    {
      if term == 0 { return from; }
      k := from;
      while k > 1
        invariant k <= from && RunStart(Log, k, term) == RunStart(Log, from, term)
      {
        var e := store.Entry(k - 1);
        if e.None? || e.value.term != term { break; }
        k := k - 1;
      }
    }

    method LastIndexWithTerm(term: nat) returns (k: nat)
      requires Wired() && lastLogIndex < LIMIT
      ensures k == LastWithTerm(Log, lastLogIndex, term)
    {
      k := lastLogIndex;
      while k >= 1
        invariant k <= lastLogIndex && LastWithTerm(Log, k, term) == LastWithTerm(Log, lastLogIndex, term)
      {
        var e := store.Entry(k);
        if e.None? { return 0; }
        if e.value.term == term { return; }
        k := k - 1;
      }
    }

    /** How to merge a batch that follows `prev`: where to cut, if anywhere, and what to append. */
    method ReconcileEntries(prev: nat, entries: seq<LogEntry>)
      returns (truncateFrom: nat, toAppend: seq<LogEntry>)
      requires Valid() && prev < |Log| && prev + |entries| < LIMIT
      ensures var k := Present(Log, prev, entries, 0);
              truncateFrom == CutAt(Log, prev, entries, k) && toAppend == entries[k..]
    {
      var i := 0;
      while i < |entries|
        invariant i <= |entries| && prev + i < |Log|
        invariant Present(Log, prev, entries, i) == Present(Log, prev, entries, 0)
      {
        var existing := store.Entry(prev + 1 + i);
        if existing.None? { return 0, entries[i..]; }
        if existing.value.term != entries[i].term { return prev + 1 + i, entries[i..]; }
        i := i + 1;
      }
      return 0, [];
    }

    method RefreshLastLog()
      requires Wired()
      modifies `lastLogIndex, `lastLogTerm
      ensures lastLogIndex == LastIndex(Log) && lastLogTerm == LastTerm(Log)
    {
      lastLogIndex := store.LastIndex();
      var e := store.Entry(lastLogIndex);
      lastLogTerm := 0;
      if e.Some? { lastLogTerm := e.value.term; }
    }

    /** Repair a conflicting suffix and append, in one transaction. */
    method RepairLog(prev: nat, entries: seq<LogEntry>)
      requires Valid() && prev < |Log| && Continue(entries, prev + 1) && prev + |entries| + 1 < LIMIT
      modifies `lastLogIndex, `lastLogTerm, `Log, store`raftLog, store`History, `Writes
      ensures Valid() && Log == Reconcile(old(Log), prev, entries)
      ensures Writes == old(Writes) +
                        if Present(old(Log), prev, entries, 0) < |entries|
                        then [Write(OnDisk(State()), SoFar())] else []
    {
      var truncateFrom, toAppend := ReconcileEntries(prev, entries);
      OverwriteRepairs(store.raftLog, Log, prev, entries);
      if truncateFrom > 0 || |toAppend| > 0 {
        ghost var before := store.History;
        store.OverwriteEntries(truncateFrom, toAppend);
        Log := Reconcile(Log, prev, entries);
        NoteWrite(before);
        RefreshLastLog();
      }
    }

    // ---- commit and apply ----

    /** An entry's effects and the checkpoint are durable together. */
    method CommitEntry(state: AppState, index: nat)
      requires Valid()
      modifies `lastApplied, store`app, store`lastApplied, store`History, `Writes
      ensures Valid() && State() == old(State()).(applied := index, app := state)
      ensures Writes == old(Writes) + [Write(OnDisk(State()), SoFar())]
    {
      ghost var before := store.History;
      store.CommitApplied(state, index);
      lastApplied := index;
      NoteWrite(before);
    }

    method AnswerWaiter(index: nat, result: Result)
      modifies `waiters, `answers
      ensures waiters == old(waiters) - {index}
      ensures answers == old(answers) +
                         if index in old(waiters) then map[old(waiters)[index] := Done(result)] else map[]
    {
      if index in waiters {
        answers := answers[waiters[index] := Done(result)];
        waiters := waiters - {index};
      }
    }

    /** Apply the next committed entry, with its checkpoint, and answer its waiter.
        Nothing changes when the entry is missing or does not apply. */
    method ApplyNextCommitted() returns (ok: bool)
      requires Valid() && lastApplied < commitIndex
      modifies `lastApplied, `waiters, `answers, store`app, store`lastApplied, store`History, `Writes
      ensures Valid() && ok == CanApply(c, old(State()))
      ensures State() == if ok then ApplyNext(c, old(State())) else old(State())
      ensures SoFar() == if ok then Telling(old(SoFar()), AnswerNext(c, old(State()))) else old(SoFar())
      ensures Writes == old(Writes) + if ok then [Write(OnDisk(State()), old(SoFar()))] else []
    {
      var index := lastApplied + 1;
      var entry := store.Entry(index);
      if entry.None? { return false; }
      var outcome := c.apply(store.app, index, entry.value.term, entry.value);
      if outcome.Failed? { return false; }
      CommitEntry(outcome.state, index);
      AnswerWaiter(index, outcome.result);
      ok := true;
    }

    method ApplyCommitted()
      requires Valid()
      modifies `lastApplied, `waiters, `answers, store`app, store`lastApplied, store`History, `Writes
      ensures Valid() && State() == Drain(c, old(State())).node
      ensures answers == old(answers) + Drain(c, old(State())).told
      ensures Writes == old(Writes) + DrainWrites(c, old(State()), old(SoFar()))
    {
      ghost var n, start, h := State(), SoFar(), Writes;
      while lastApplied < commitIndex
        invariant Valid() && DrainedTo(c, n, start, h, State(), SoFar(), Writes)
        decreases commitIndex - lastApplied
      {
        ghost var m, now, ws := State(), SoFar(), Writes;
        var ok := ApplyNextCommitted();
        if !ok { break; }
        DrainedOne(c, n, start, h, m, now, ws);
      }
      DrainedAll(c, n, start, h, State(), SoFar(), Writes);
    }

    // ---- the AppendEntries handler ----

    /** The hint to refuse with, unless the log holds the entry before the batch. */
    method CheckPrev(req: AppendReq) returns (refusal: Option<AppendResp>)
      requires Valid() && req.prevIndex < LIMIT
      ensures refusal == if PrevMatches(Log, req) then None else Some(Conflict(State(), req))
    {
      if req.prevIndex > lastLogIndex { return Some(AppendResp(currentTerm, false, 0, 0, lastLogIndex + 1)); }
      if req.prevIndex > 0 {
        var entry := store.Entry(req.prevIndex);
        var term := 0;
        if entry.Some? { term := entry.value.term; }
        if entry.None? || term != req.prevTerm {
          var first := FirstIndexOfTerm(req.prevIndex, term);
          return Some(AppendResp(currentTerm, false, 0, term, first));
        }
      }
      return None;
    }

    method SetCommit(index: nat)
      requires Valid() && index < LIMIT
      modifies `commitIndex, store`commitIndex, store`History, `Writes
      ensures Valid() && State() == old(State()).(commit := index)
      ensures Recorded(store.History, Writes) && Writes == old(Writes) + [Write(OnDisk(State()), SoFar())]
    {
      ghost var before := store.History;
      commitIndex := index;
      store.SetCommitIndex(index);
      NoteWrite(before);
    }

    /** Commit up to an index, then apply. */
    method CommitTo(index: nat)
      requires Valid() && index < LIMIT
      modifies `commitIndex, `lastApplied, `waiters, `answers, `Writes
      modifies store`commitIndex, store`app, store`lastApplied, store`History
      ensures Valid() && State() == Drain(c, old(State()).(commit := index)).node
      ensures answers == old(answers) + Drain(c, old(State()).(commit := index)).told
      ensures Writes == old(Writes) + CommitWrites(c, old(State()), index, old(SoFar()))
    {
      SetCommit(index);
      ApplyCommitted();
    }

    /** Commit what the leader reports, bounded by what the request covered, and apply it. */
    method LearnCommit(req: AppendReq)
      requires Valid() && req.prevIndex + |req.entries| < LIMIT
      modifies `commitIndex, `lastApplied, `waiters, `answers, `Writes
      modifies store`commitIndex, store`app, store`lastApplied, store`History
      ensures Valid() && State() == Learn(c, old(State()), req).node
      ensures answers == old(answers) + Learn(c, old(State()), req).told
      ensures Writes == old(Writes) + LearnWrites(c, old(State()), req, old(SoFar()))
    {
      var covered := req.prevIndex + |req.entries|;
      var newCommit := if covered < req.leaderCommit then covered else req.leaderCommit;
      if newCommit > commitIndex {
        assert FollowerCommit(State(), req) == State().(commit := newCommit);
        CommitTo(newCommit);
      } else {
        assert FollowerCommit(State(), req) == State();
      }
    }

    /** Repair the log, or refuse with a hint. */
    method RepairOrRefuse(req: AppendReq) returns (resp: AppendResp)
      requires Valid() && Continue(req.entries, req.prevIndex + 1) && req.prevIndex + |req.entries| + 1 < LIMIT
      modifies `lastLogIndex, `lastLogTerm, `Log, store`raftLog, store`History, `Writes
      ensures Valid() && PrevMatches(old(Log), req) ==>
                && Log == Reconcile(old(Log), req.prevIndex, req.entries)
                && resp == AppendResp(currentTerm, true, req.prevIndex + |req.entries|, 0, 0)
                && Writes == old(Writes) + if Present(old(Log), req.prevIndex, req.entries, 0) < |req.entries|
                                           then [Write(OnDisk(State()), SoFar())] else []
      ensures Valid() && !PrevMatches(old(Log), req) ==>
                Log == old(Log) && Writes == old(Writes) && resp == Conflict(old(State()), req)
      ensures Valid()
    {
      var refusal := CheckPrev(req);
      if refusal.Some? { return refusal.value; }
      RepairLog(req.prevIndex, req.entries);
      resp := AppendResp(currentTerm, true, req.prevIndex + |req.entries|, 0, 0);
    }

    /** Recognize the leader, then repair the log or refuse with a hint. */
    method AcceptEntries(req: AppendReq) returns (resp: AppendResp)
      requires Valid() && Continue(req.entries, req.prevIndex + 1) && req.prevIndex + |req.entries| + 1 < LIMIT
      requires req.term >= currentTerm
      modifies this, store
      ensures Valid() && (State(), resp) == AcceptAppend(old(State()), req)
      ensures SoFar() == Telling(old(SoFar()), Deposed(old(State())))
      ensures Writes == old(Writes) + YieldWrites(old(State()), req.term, old(SoFar()))
                        + RepairWrites(old(State()), req, Telling(old(SoFar()), Deposed(old(State()))))
    {
      BecomeFollower(req.term, req.leader);
      resp := RepairOrRefuse(req);
    }

    /** A request of the current leader: accept, then learn what it has committed. */
    method FollowLeader(req: AppendReq) returns (resp: AppendResp)
      requires Valid() && Continue(req.entries, req.prevIndex + 1) && req.prevIndex + |req.entries| + 1 < LIMIT
      requires req.term >= currentTerm && Genuine(c, req.version, req.clusterId)
      modifies this, store
      ensures Valid() && resp == AcceptAppend(old(State()), req).1
      ensures State() == OnAppendCall(c, id, old(State()), req).node
      ensures outbox == old(outbox) && answers == old(answers) + OnAppendCall(c, id, old(State()), req).told
      ensures Writes == old(Writes) + AppendCallWrites(c, old(State()), req, old(SoFar()))
    {
      FollowIs(c, id, State(), req);
      resp := AcceptEntries(req);
      ghost var n, said := old(State()), old(SoFar());
      FollowWritesAre(c, n, req, said, old(Writes));
      if resp.success {
        ToldInTurn(said.told, Deposed(n), Learn(c, State(), req).told);
        LearnCommit(req);
      }
    }

    method HandleAppendEntries(req: AppendReq) returns (resp: AppendResp)
      requires Valid() && Continue(req.entries, req.prevIndex + 1) && req.prevIndex + |req.entries| + 1 < LIMIT
      modifies this, store
      ensures Valid() && State() == OnAppendCall(c, id, old(State()), req).node
      ensures outbox == old(outbox) && answers == old(answers) + OnAppendCall(c, id, old(State()), req).told
      ensures OnAppendCall(c, id, old(State()), req).sent == {AppendReturn(req.leader, id, req.term, resp)}
      ensures Writes == old(Writes) + AppendCallWrites(c, old(State()), req, old(SoFar()))
    {
      resp := AppendResp(currentTerm, false, 0, 0, 0);
      if req.version != PROTOCOL_VERSION || req.clusterId != clusterID { return; }
      if req.term < currentTerm { return; }
      ReplyIs(c, id, State(), req);
      resp := FollowLeader(req);
    }

    // ---- the leader's side ----

    method GatherMatches() returns (ms: seq<nat>)
      requires Valid()
      ensures ms == [LastIndex(Log)] + MatchesOf(State(), peers)
    {
      ms := [lastLogIndex];
      for i := 0 to |peers|
        invariant |ms| == i + 1 && ms[0] == lastLogIndex
        invariant forall j :: 0 <= j < i ==> ms[j + 1] == MatchOf(State(), peers[j])
      {
        ms := ms + [if peers[i] in matchIndex then matchIndex[peers[i]] else 0];
      }
    }

    /** Sorted largest first, the quorum-th match index is the highest that a majority holds. */
    method MajorityMatch() returns (k: nat)
      requires Configured() && Valid()
      ensures k == MajorityIndex(c, State(), peers)
    {
      var ms := GatherMatches();
      k := SortDescending(ms)[c.quorum - 1];
    }

    /** The highest index that a majority holds, if it is news and of this term. */
    method CommitCandidate() returns (k: Option<nat>)
      requires Configured() && Valid()
      ensures k == ChooseCommit(c, State(), peers)
    {
      var candidate := MajorityMatch();
      if candidate <= commitIndex || candidate >= LIMIT { return None; }
      var entry := store.Entry(candidate);
      if entry.None? || entry.value.term != currentTerm { return None; }
      return Some(candidate);
    }

    /** Commit, apply, and let the peers know at once. */
    method CommitAndBroadcast(index: nat)
      requires Configured() && Valid() && index < LIMIT
      modifies `commitIndex, `lastApplied, `waiters, `answers, `outbox, `Writes
      modifies store`commitIndex, store`app, store`lastApplied, store`History
      ensures var drained := Drain(c, old(State()).(commit := index));
              && Valid() && State() == drained.node && answers == old(answers) + drained.told
              && outbox == old(outbox) + Replicate(c, id, drained.node).sent
      ensures Writes == old(Writes) + CommitWrites(c, old(State()), index, old(SoFar()))
    {
      CommitTo(index);
      ReplicateToAll();
    }

    method AdvanceCommit()
      requires Configured() && Valid()
      modifies `commitIndex, `lastApplied, `waiters, `answers, `outbox, `Writes
      modifies store`commitIndex, store`app, store`lastApplied, store`History
      ensures Valid() && State() == Advance(c, id, old(State()), peers).node
      ensures SoFar() == Saying(old(SoFar()), Advance(c, id, old(State()), peers))
      ensures Writes == old(Writes) + AdvanceWrites(c, old(State()), peers, old(SoFar()))
    {
      var candidate := CommitCandidate();
      if candidate.Some? {
        AdvanceIs(c, id, State(), peers);
        CommitAndBroadcast(candidate.value);
      }
    }

    method BackupNextIndex(peer: NodeId, resp: AppendResp)
      requires Valid()
      modifies `nextIndex
      ensures State() == BackUp(old(State()), peer, resp)
    {
      var next := resp.conflictIndex;
      if resp.conflictTerm != 0 {
        var last := LastIndexWithTerm(resp.conflictTerm);
        if last > 0 { next := last + 1; }
      }
      if next < 1 { next := 1; }
      nextIndex := nextIndex[peer := next];
    }

    /** A current reply: progress on success, a step back on a refusal. */
    method RecordReply(from: NodeId, resp: AppendResp)
      requires Valid() && role == Leader && resp.term <= currentTerm
      modifies `nextIndex, `matchIndex
      ensures State() == OnAppendResp(old(State()), from, currentTerm, resp)
    {
      if resp.success {
        if resp.matchIndex > (if from in matchIndex then matchIndex[from] else 0) {
          matchIndex := matchIndex[from := resp.matchIndex];
          nextIndex := nextIndex[from := resp.matchIndex + 1];
        }
      } else {
        BackupNextIndex(from, resp);
      }
    }

    /** A reply from a peer; None when the call failed. */
    method HandleAppendResponse(from: NodeId, sent: nat, reply: Option<AppendResp>)
      requires Configured() && Valid()
      modifies this, store
      ensures Valid() && State() == OnAppendReturn(c, id, old(State()), peers, from, sent, reply).node
      ensures SoFar() == Saying(old(SoFar()), OnAppendReturn(c, id, old(State()), peers, from, sent, reply))
      ensures Writes == old(Writes) +
                        if reply.None? then []
                        else AppendReplyWrites(c, old(State()), peers, from, sent, reply.value, old(SoFar()))
    {
      if reply.None? { return; }
      var resp := reply.value;
      if resp.term > currentTerm {
        BecomeFollower(resp.term, "");
        return;
      }
      if role != Leader || sent != currentTerm { return; }
      RecordReply(from, resp);
      if resp.success { AdvanceCommit(); } else { ReplicateToPeer(from); }
    }

    // ---- proposals ----

    /** Append a command and wait for it, if this node leads; None tells the caller it does not. */
    method HandlePropose(command: Command, ticket: nat) returns (index: Option<nat>)
      requires Configured() && Valid() && |Log| + 1 < LIMIT
      modifies this, store
      ensures Valid() && State() == OnPropose(c, id, old(State()), command, ticket).node
      ensures SoFar() == Saying(old(SoFar()), OnPropose(c, id, old(State()), command, ticket))
      ensures index == if old(role) == Leader then Some(|old(Log)|) else None
      ensures Writes == old(Writes) + ProposeWrites(old(State()), command, ticket, old(SoFar()))
    {
      if role != Leader { return None; }
      RegisterProposal(command, ticket);
      index := Some(lastLogIndex);
      ReplicateToAll();
    }

    method RegisterProposal(command: Command, ticket: nat)
      requires Valid() && |Log| + 1 < LIMIT
      modifies `lastLogIndex, `lastLogTerm, `Log, `waiters, store`raftLog, store`History, `Writes
      ensures Valid() && State() == Propose(old(State()), command, ticket) && lastLogIndex == |old(Log)|
      ensures Recorded(store.History, Writes) && Writes == old(Writes) + [Write(OnDisk(State()), SoFar())]
    {
      AppendLocal(Carries(command));
      waiters := waiters[lastLogIndex := ticket];
    }

    method DeregisterWaiter(index: nat)
      requires Valid()
      modifies `waiters
      ensures Valid() && State() == old(State()).(waiters := old(waiters) - {index})
    {
      waiters := waiters - {index};
    }

    // ---- recovery ----

    ghost function Stored(): Disk
      reads this, store
    {
      Disk(store.currentTerm, store.votedFor, Log, store.commitIndex, store.lastApplied, store.app)
    }

    /** Go by the stored cluster id, or store the configured one; False if there is no agreeing on one. */
    method RecoverClusterID() returns (ok: bool)
      modifies `clusterID, store`clusterId
      ensures ok == Pinned(old(store.clusterId), old(clusterID)).Some?
      ensures if ok then clusterID == store.clusterId == Pinned(old(store.clusterId), old(clusterID)).value
              else clusterID == old(clusterID) && store.clusterId == old(store.clusterId)
    {
      if store.clusterId == "" {
        if clusterID == "" { return false; }
        store.SetClusterId(clusterID);
      } else if clusterID != "" && store.clusterId != clusterID {
        return false;
      } else {
        clusterID := store.clusterId;
      }
      return true;
    }

    method LoadCheckpoints()
      modifies `currentTerm, `votedFor, `commitIndex, `lastApplied, `role, `leaderID
      ensures Cached() && role == Follower && leaderID == ""
    {
      currentTerm := store.currentTerm;
      votedFor := store.votedFor;
      commitIndex := store.commitIndex;
      lastApplied := store.lastApplied;
      role := Follower;
      leaderID := "";
    }

    method LoadDisk()
      requires Wired() && Blank() && clusterID == c.clusterId
      modifies `currentTerm, `votedFor, `lastLogIndex, `lastLogTerm, `commitIndex, `lastApplied, `role, `leaderID
      ensures Valid() && State() == Restarted(Stored())
    {
      RefreshLastLog();
      LoadCheckpoints();
    }

    /** Settle the cluster id, load what is on disk, then apply what was committed but not
        applied.  False if the first fails, which changes nothing, or the last stops short. */
    method Recover() returns (ok: bool)
      requires Wired() && Blank()
      requires Pinned(store.clusterId, clusterID).Some? ==> Pinned(store.clusterId, clusterID).value == c.clusterId
      modifies this, store
      ensures Pinned(old(store.clusterId), old(clusterID)).None? ==> !ok && unchanged(this) && unchanged(store)
      ensures Pinned(old(store.clusterId), old(clusterID)).Some? ==>
                && Valid() && State() == Drain(c, Restarted(old(Stored()))).node && ok == (lastApplied >= commitIndex)
                && SoFar() == old(SoFar()) && store.clusterId == c.clusterId
                && Writes == old(Writes) + DrainWrites(c, Restarted(old(Stored())), old(SoFar()))
    {
      ok := RecoverClusterID();
      if !ok { return; }
      LoadDisk();
      DrainTellsNobody(c, State());
      assert answers + map[] == answers;
      ApplyCommitted();
      ok := lastApplied >= commitIndex;
    }
  }

  /** A new member over an empty store: it starts where every member of the cluster starts. */
  method NewNode(c: Config, id: NodeId, configured: string, members: seq<NodeId>) returns (node: Node, ok: bool)
    requires ConfigOk(c) && id in c.servers && forall p :: p in members <==> p in c.servers
    requires forall i, j :: 0 <= i < j < |members| ==> members[i] != members[j]
    requires configured != "" ==> configured == c.clusterId
    ensures fresh(node) && fresh(node.store) && node.c == c && node.id == id && node.Configured()
    ensures ok == (configured != "")
    ensures ok ==> node.Valid() && node.State() == InitNode(c) && node.SoFar() == Said({}, map[]) && node.Writes == []
    ensures ok ==> node.store.clusterId == c.clusterId
  {
    var store := new Store(c.init);
    node := new Node(c, id, configured, members, store, [SENTINEL], []);
    ok := node.Recover();
  }
}
