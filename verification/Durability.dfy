/**
  Crashes inside handlers.  Each handler makes a known sequence of durable writes, and
  between them it answers proposers and hands out messages.  Wherever it stops, what the
  disk holds and what the outside has seen is what some path of cluster steps leaves, so a
  crash there, followed by recovery, is again a path of cluster steps: nothing depends on
  a handler running to its end.
 */
module Durability {
  import opened Models
  import opened RaftNode
  import opened Cluster
  import opened ClusterInvariant
  import opened ClusterSafety
  import opened CommitChoice
  import opened Handlers

  /** What survives a crash. */
  datatype Disk = Disk(term: nat, vote: NodeId, log: seq<LogEntry>, commit: nat, applied: nat, app: AppState)

  function OnDisk(n: NodeState): Disk { Disk(n.term, n.vote, n.log, n.commit, n.applied, n.app) }

  /** A member of which only the disk is left. */
  function Restarted(d: Disk): NodeState {
    NodeState(d.term, d.vote, d.log, d.commit, d.applied, d.app, Follower, "", 0, map[], map[], map[])
  }

  /** What the outside has seen: messages handed out, and what proposers were told. */
  datatype Said = Said(sent: set<Message>, told: map<nat, Outcome>)

  /** A durable write: what the disk holds after it, and what had been said before it. */
  datatype Write = Write(disk: Disk, said: Said)

  function Saying(said: Said, e: Effect): Said { Said(said.sent + e.sent, said.told + e.told) }

  function Telling(said: Said, told: map<nat, Outcome>): Said { Said(said.sent, said.told + told) }

  // ---- the durable writes of each handler, in order, when it starts having said `said` ----

  function YieldWrites(n: NodeState, term: nat, said: Said): seq<Write> {
    if term > n.term then [Write(OnDisk(StepDown(n, term, "")), said)] else []
  }

  function DrainWrites(c: Config, n: NodeState, said: Said): seq<Write>
    decreases n.commit - n.applied
  {
    if CanApply(c, n)
    then [Write(OnDisk(ApplyNext(c, n)), said)] + DrainWrites(c, ApplyNext(c, n), Telling(said, AnswerNext(c, n)))
    else []
  }

  function TimeoutWrites(id: NodeId, n: NodeState, said: Said): seq<Write> {
    if n.role == Leader then [] else [Write(OnDisk(StartElection(id, n)), said)]
  }

  /** A vote is written after the proposers of a deposed leader have been told. */
  function VoteCallWrites(c: Config, n: NodeState, req: VoteReq, said: Said): seq<Write> {
    if !Genuine(c, req.version, req.clusterId) || req.term < n.term then []
    else
      var (m, resp) := OnVoteReq(c, n, req);
      YieldWrites(n, req.term, said) +
      if resp.granted then [Write(OnDisk(m), if req.term > n.term then Telling(said, Deposed(n)) else said)] else []
  }

  function CountWrites(c: Config, id: NodeId, n: NodeState, said: Said): seq<Write> {
    var m := n.(votes := n.votes + 1);
    if m.votes >= c.quorum then [Write(OnDisk(Promote(c, id, m)), said)] else []
  }

  function VoteReplyWrites(c: Config, id: NodeId, n: NodeState, sent: nat, resp: VoteResp, said: Said): seq<Write> {
    if resp.term > n.term then YieldWrites(n, resp.term, said)
    else if n.role != Candidate || sent != n.term || !resp.granted then []
    else CountWrites(c, id, n, said)
  }

  /** The log is written only when the batch holds something new. */
  function RepairWrites(n: NodeState, req: AppendReq, said: Said): seq<Write> {
    var (m, resp) := AcceptAppend(n, req);
    if resp.success && Present(n.log, req.prevIndex, req.entries, 0) < |req.entries|
    then [Write(OnDisk(m), said)] else []
  }

  function LearnWrites(c: Config, n: NodeState, req: AppendReq, said: Said): seq<Write> {
    var m := FollowerCommit(n, req);
    if m.commit > n.commit then [Write(OnDisk(m), said)] + DrainWrites(c, m, said) else []
  }

  /** Repair, then learn if that succeeds. */
  function FollowWrites(c: Config, n: NodeState, req: AppendReq, said: Said): seq<Write> {
    var (m, resp) := AcceptAppend(n, req);
    RepairWrites(n, req, said) + if resp.success then LearnWrites(c, m, req, said) else []
  }

  function AppendCallWrites(c: Config, n: NodeState, req: AppendReq, said: Said): seq<Write> {
    if !Genuine(c, req.version, req.clusterId) || req.term < n.term then []
    else YieldWrites(n, req.term, said) + FollowWrites(c, n, req, Telling(said, Deposed(n)))
  }

  function CommitWrites(c: Config, n: NodeState, k: nat, said: Said): seq<Write> {
    [Write(OnDisk(n.(commit := k)), said)] + DrainWrites(c, n.(commit := k), said)
  }

  function AdvanceWrites(c: Config, n: NodeState, peers: seq<NodeId>, said: Said): seq<Write>
    requires 1 <= c.quorum <= |peers| + 1
  {
    match ChooseCommit(c, n, peers)
    case None => []
    case Some(k) => CommitWrites(c, n, k, said)
  }

  function AppendReplyWrites(
    c: Config, n: NodeState, peers: seq<NodeId>, from: NodeId, sent: nat, resp: AppendResp, said: Said): seq<Write>
    requires 1 <= c.quorum <= |peers| + 1
  {
    if resp.term > n.term then YieldWrites(n, resp.term, said)
    else if n.role != Leader || sent != n.term || !resp.success then []
    else AdvanceWrites(c, OnAppendResp(n, from, sent, resp), peers, said)
  }

  function ProposeWrites(n: NodeState, command: Command, ticket: nat, said: Said): seq<Write> {
    if n.role == Leader then [Write(OnDisk(Propose(n, command, ticket)), said)] else []
  }

  // ---- stopping anywhere ----

  /** Some of what is said between two moments has been said, in any order. */
  ghost predicate Between(lo: Said, said: Said, hi: Said) {
    && lo.sent <= said.sent <= hi.sent
    && lo.told.Keys <= said.told.Keys <= hi.told.Keys
    && (forall t {:trigger said.told[t]} :: t in said.told ==>
          said.told[t] == hi.told[t] || (t in lo.told && said.told[t] == lo.told[t]))
  }

  ghost predicate StoppedAt(s: State, id: NodeId, d: Disk, said: Said, t: State) {
    && id in t.nodes && t.nodes == s.nodes[id := t.nodes[id]] && OnDisk(t.nodes[id]) == d
    && s.net + said.sent <= t.net && t.outcomes == said.told
  }

  /** Cluster steps lead from s to a state where this member's disk is d, no other member has
      moved, all that was sent is in the network, and proposers know exactly what was told. */
  ghost predicate CanStop(c: Config, s: State, id: NodeId, d: Disk, said: Said) {
    exists t :: Shaped(c, t) && Leads(c, s, t) && StoppedAt(s, id, d, said, t)
  }

  /** The handler can stop anywhere while the disk is d and `said` grows from lo to hi. */
  ghost predicate Pauses(c: Config, s: State, id: NodeId, d: Disk, lo: Said, hi: Said) {
    forall said {:trigger Between(lo, said, hi)} :: Between(lo, said, hi) ==> CanStop(c, s, id, d, said)
  }

  /** What will have been said by the next write, or by the end. */
  function Head(ws: seq<Write>, end: Said): Said { if |ws| == 0 then end else ws[0].said }

  /** The handler can stop anywhere: before its first write, between any two, and after the last. */
  ghost predicate AllStop(c: Config, s: State, id: NodeId, d: Disk, lo: Said, ws: seq<Write>, end: Said)
    decreases |ws|
  {
    && Pauses(c, s, id, d, lo, Head(ws, end))
    && (|ws| > 0 ==> AllStop(c, s, id, ws[0].disk, ws[0].said, ws[1..], end))
  }

  /** A handler that starts in s, makes these writes and has this effect can stop anywhere. */
  ghost predicate Restartable(c: Config, s: State, id: NodeId, ws: seq<Write>, e: Effect)
    requires id in s.nodes
  {
    AllStop(c, s, id, OnDisk(s.nodes[id]), Said({}, s.outcomes), ws, Said(e.sent, s.outcomes + e.told))
  }

  /** Spelled out: after the k-th write and any part of what is said before the next one. */
  lemma {:induction false} StopsAfter(
    c: Config, s: State, id: NodeId, d: Disk, lo: Said, ws: seq<Write>, end: Said, k: nat, said: Said)
    requires AllStop(c, s, id, d, lo, ws, end) && k <= |ws|
    requires Between(if k == 0 then lo else ws[k - 1].said, said, Head(ws[k..], end))
    ensures CanStop(c, s, id, if k == 0 then d else ws[k - 1].disk, said)
    decreases k
  {
    if k == 0 {
      assert ws[0..] == ws;
    } else {
      assert ws[1..][k - 1..] == ws[k..];
      StopsAfter(c, s, id, ws[0].disk, ws[0].said, ws[1..], end, k - 1, said);
    }
  }

  // ---- single stops ----

  lemma StopsThere(c: Config, s: State, id: NodeId, e: Effect, t: State, said: Said)
    requires Performs(c, s, id, e, t) && said.told == s.outcomes + e.told && said.sent <= s.net + e.sent
    ensures CanStop(c, s, id, OnDisk(e.node), said)
  {
    assert StoppedAt(s, id, OnDisk(e.node), said, t);
  }

  lemma StoppedThrough(s: State, id: NodeId, e: Effect, t: State, d: Disk, said: Said, u: State)
    requires Performed(s, id, e, t) && StoppedAt(t, id, d, said, u)
    ensures StoppedAt(s, id, d, said, u)
  {
  }

  lemma StopsLater(c: Config, s: State, id: NodeId, e: Effect, t: State, d: Disk, said: Said)
    requires Performs(c, s, id, e, t) && CanStop(c, t, id, d, said)
    ensures CanStop(c, s, id, d, said)
  {
    var u :| Shaped(c, u) && Leads(c, t, u) && StoppedAt(t, id, d, said, u);
    LeadsOn(c, s, t, u);
    StoppedThrough(s, id, e, t, d, said, u);
  }

  lemma {:induction false} AllStopLater(
    c: Config, s: State, id: NodeId, e: Effect, t: State, d: Disk, lo: Said, ws: seq<Write>, end: Said)
    requires Performs(c, s, id, e, t) && AllStop(c, t, id, d, lo, ws, end)
    ensures AllStop(c, s, id, d, lo, ws, end)
    decreases |ws|
  {
    forall said | Between(lo, said, Head(ws, end)) ensures CanStop(c, s, id, d, said) {
      StopsLater(c, s, id, e, t, d, said);
    }
    if |ws| == 0 {
    } else {
      AllStopLater(c, s, id, e, t, ws[0].disk, ws[0].said, ws[1..], end);
    }
  }

  /** Nothing is told from lo to hi, so whatever was sent, the told part is settled. */
  lemma PausesAt(c: Config, s: State, id: NodeId, e: Effect, t: State, lo: Said, hi: Said)
    requires Performs(c, s, id, e, t) && lo.told == hi.told == s.outcomes + e.told && hi.sent <= s.net + e.sent
    ensures Pauses(c, s, id, OnDisk(e.node), lo, hi)
  {
    forall said | Between(lo, said, hi) ensures CanStop(c, s, id, OnDisk(e.node), said) {
      assert said.told == lo.told;
      StopsThere(c, s, id, e, t, said);
    }
  }

  lemma PausesHere(c: Config, s: State, id: NodeId, lo: Said, hi: Said)
    requires Shaped(c, s) && id in s.nodes && lo.told == hi.told == s.outcomes && hi.sent <= s.net
    ensures Pauses(c, s, id, OnDisk(s.nodes[id]), lo, hi)
  {
    IdlePerforms(c, s, id);
    assert s.outcomes + map[] == s.outcomes;
    PausesAt(c, s, id, Idle(s.nodes[id]), s, lo, hi);
  }

  /** One write more in front, made before anything was said. */
  lemma StopsBefore(c: Config, s: State, id: NodeId, w: Write, ws: seq<Write>, end: Said)
    requires Shaped(c, s) && id in s.nodes && w.said.told == s.outcomes && w.said.sent <= s.net
    requires AllStop(c, s, id, w.disk, w.said, ws, end)
    ensures AllStop(c, s, id, OnDisk(s.nodes[id]), w.said, [w] + ws, end)
  {
    PausesHere(c, s, id, w.said, w.said);
    assert ([w] + ws)[1..] == ws;
  }

  /** A handler that writes nothing and tells nobody. */
  lemma OnlySends(c: Config, s: State, id: NodeId, e: Effect, t: State)
    requires Performs(c, s, id, e, t) && id in s.nodes && OnDisk(e.node) == OnDisk(s.nodes[id]) && e.told == map[]
    ensures Restartable(c, s, id, [], e)
  {
    assert s.outcomes + map[] == s.outcomes;
    PausesAt(c, s, id, e, t, Said({}, s.outcomes), Said(e.sent, s.outcomes + e.told));
  }

  // ---- telling only some ----

  /** Proposers may stop waiting at any time; in particular those that a crash cuts off. */
  lemma {:induction false} MuteIsSteps(c: Config, s: State, id: NodeId, indexes: set<nat>) returns (t: State)
    requires Shaped(c, s) && id in c.servers
    ensures Performs(c, s, id, Idle(s.nodes[id].(waiters := s.nodes[id].waiters - indexes)), t)
    decreases indexes
  {
    var n := s.nodes[id];
    if indexes == {} {
      IdlePerforms(c, s, id);
      assert n.waiters - {} == n.waiters;
      t := s;
    } else {
      var k :| k in indexes;
      var m := n.(waiters := n.waiters - {k});
      var u := WithNode(s, id, m);
      LeadsOneStep(c, s, Deregister(id, k));
      t := MuteIsSteps(c, u, id, indexes - {k});
      var last := m.(waiters := m.waiters - (indexes - {k}));
      AfterIdle(c, s, id, m, u, Idle(last), t);
      assert n.waiters - {k} - (indexes - {k}) == n.waiters - indexes;
    }
  }

  /** Applying an entry whose proposer is never told. */
  lemma ApplySilently(c: Config, s: State, id: NodeId) returns (t: State)
    requires Shaped(c, s) && id in c.servers && CanApply(c, s.nodes[id])
    ensures Performs(c, s, id, Idle(ApplyNext(c, s.nodes[id])), t)
  {
    var n := s.nodes[id];
    var k := n.applied + 1;
    var m := n.(waiters := n.waiters - {k});
    var u := MuteIsSteps(c, s, id, {k});
    t := ApplyIsStep(c, u, id);
    assert n.waiters - {k} - {k} == n.waiters - {k};
    AfterIdle(c, s, id, m, u, Idle(ApplyNext(c, n)), t);
  }

  /** Stepping down when only some of the proposers are told. */
  lemma YieldToSome(c: Config, s: State, id: NodeId, msg: Message, some: set<nat>) returns (t: State)
    requires Shaped(c, s) && id in c.servers && msg in s.net && msg.to == id && TermOf(msg) > s.nodes[id].term
    requires some <= FailedBy(s.nodes[id])
    ensures Performs(c, s, id, Effect(StepDown(s.nodes[id], TermOf(msg), ""), {}, Failing(some)), t)
  {
    var n := s.nodes[id];
    if n.role == Leader {
      var others := set i | i in n.waiters && n.waiters[i] !in some;
      var m := n.(waiters := n.waiters - others);
      OnlySomeLeft(n.waiters, some, others);
      var u := MuteIsSteps(c, s, id, others);
      t := YieldIsSteps(c, u, id, msg);
      AfterIdle(c, s, id, m, u, Yield(m, TermOf(msg), ""), t);
    } else {
      t := YieldIsSteps(c, s, id, msg);
    }
  }

  lemma OnlySomeLeft(waiters: map<nat, nat>, some: set<nat>, others: set<nat>)
    requires some <= waiters.Values && others == set i | i in waiters && waiters[i] !in some
    ensures (waiters - others).Values == some
  {
    var left := waiters - others;
    forall v | v in some ensures v in left.Values {
      var i :| i in waiters && waiters[i] == v;
      assert i in left && left[i] == v;
    }
  }

  /** The proposers among `all` that have been told when this much was said. */
  function ToldOf(all: set<nat>, said: Said): set<nat> {
    set t | t in all && t in said.told && said.told[t] == NotLeader
  }

  lemma SomeTold(before: map<nat, Outcome>, all: set<nat>, lo: Said, said: Said, hi: Said)
    requires Between(lo, said, hi) && lo.told == before && hi.told == before + Failing(all)
    ensures said.told == before + Failing(ToldOf(all, said))
  {
    var told := before + Failing(ToldOf(all, said));
    forall t | t in said.told ensures t in told && told[t] == said.told[t] {
      assert said.told[t] == hi.told[t] || (t in lo.told && said.told[t] == lo.told[t]);
    }
  }

  // ---- the parts that handlers share ----

  lemma ApplyPauses(c: Config, s: State, id: NodeId, lo: Said, hi: Said)
    requires Shaped(c, s) && id in c.servers && CanApply(c, s.nodes[id]) && hi.sent <= s.net
    requires lo.told == s.outcomes && hi.told == s.outcomes + AnswerNext(c, s.nodes[id])
    ensures Pauses(c, s, id, OnDisk(ApplyNext(c, s.nodes[id])), lo, hi)
  {
    forall said | Between(lo, said, hi) ensures CanStop(c, s, id, OnDisk(ApplyNext(c, s.nodes[id])), said) {
      NextTold(c, s.nodes[id], lo, said, hi);
      ApplyStops(c, s, id, said);
    }
  }

  lemma ApplyStops(c: Config, s: State, id: NodeId, said: Said)
    requires Shaped(c, s) && id in c.servers && CanApply(c, s.nodes[id]) && said.sent <= s.net
    requires said.told == s.outcomes || said.told == s.outcomes + AnswerNext(c, s.nodes[id])
    ensures CanStop(c, s, id, OnDisk(ApplyNext(c, s.nodes[id])), said)
  {
    var n := s.nodes[id];
    if said.told == s.outcomes {
      assert s.outcomes + map[] == s.outcomes;
      var t := ApplySilently(c, s, id);
      StopsThere(c, s, id, Idle(ApplyNext(c, n)), t, said);
    } else {
      var t := ApplyIsStep(c, s, id);
      StopsThere(c, s, id, Effect(ApplyNext(c, n), {}, AnswerNext(c, n)), t, said);
    }
  }

  /** Of one answer there are no parts. */
  lemma NextTold(c: Config, n: NodeState, lo: Said, said: Said, hi: Said)
    requires CanApply(c, n) && Between(lo, said, hi) && hi.told == lo.told + AnswerNext(c, n)
    ensures said.told == lo.told || said.told == hi.told
  {
    var k := n.applied + 1;
    if k in n.waiters {
      OneTold(lo, said, hi, n.waiters[k], Done(NextResult(c, n)));
    } else {
      assert lo.told + map[] == lo.told;
      assert said.told == lo.told;
    }
  }

  lemma OneTold(lo: Said, said: Said, hi: Said, ticket: nat, outcome: Outcome)
    requires Between(lo, said, hi) && hi.told == lo.told + map[ticket := outcome]
    ensures said.told == lo.told || said.told == hi.told
  {
    if ticket in said.told && said.told[ticket] == outcome {
      assert said.told == hi.told;
    } else {
      assert said.told == lo.told;
    }
  }

  lemma {:induction false} DrainStops(c: Config, s: State, id: NodeId, lo: Said, end: Said)
    requires Shaped(c, s) && id in c.servers && lo == Said({}, s.outcomes) && end.sent <= s.net
    requires end.told == s.outcomes + Drain(c, s.nodes[id]).told
    ensures AllStop(c, s, id, OnDisk(s.nodes[id]), lo, DrainWrites(c, s.nodes[id], lo), end)
    decreases s.nodes[id].commit - s.nodes[id].applied
  {
    var n := s.nodes[id];
    if CanApply(c, n) {
      var m, next := ApplyNext(c, n), Telling(lo, AnswerNext(c, n));
      var t := ApplyIsStep(c, s, id);
      DrainTold(c, n, s.outcomes);
      DrainStops(c, t, id, next, end);
      DrainHead(c, m, next, end);
      ApplyThenStops(c, s, id, t, lo, DrainWrites(c, m, next), end);
    } else {
      assert s.outcomes + map[] == s.outcomes;
      PausesHere(c, s, id, lo, end);
    }
  }

  lemma DrainTold(c: Config, n: NodeState, before: map<nat, Outcome>)
    requires CanApply(c, n)
    ensures before + Drain(c, n).told == before + AnswerNext(c, n) + Drain(c, ApplyNext(c, n)).told
  {
  }

  lemma ApplyThenStops(c: Config, s: State, id: NodeId, t: State, lo: Said, rest: seq<Write>, end: Said)
    requires Shaped(c, s) && id in c.servers && CanApply(c, s.nodes[id]) && lo == Said({}, s.outcomes)
    requires var n := s.nodes[id]; var m, next := ApplyNext(c, n), Telling(lo, AnswerNext(c, n));
             && Performs(c, s, id, Effect(m, {}, AnswerNext(c, n)), t)
             && AllStop(c, t, id, OnDisk(m), next, rest, end)
             && Head(rest, end).told == next.told && Head(rest, end).sent <= s.net
    ensures AllStop(c, s, id, OnDisk(s.nodes[id]), lo, [Write(OnDisk(ApplyNext(c, s.nodes[id])), lo)] + rest, end)
  {
    var n := s.nodes[id];
    var m, next := ApplyNext(c, n), Telling(lo, AnswerNext(c, n));
    AllStopLater(c, s, id, Effect(m, {}, AnswerNext(c, n)), t, OnDisk(m), next, rest, end);
    ApplyPauses(c, s, id, lo, Head(rest, end));
    StopsBefore(c, s, id, Write(OnDisk(m), lo), rest, end);
  }

  lemma DrainHead(c: Config, n: NodeState, lo: Said, end: Said)
    requires end.told == lo.told + Drain(c, n).told
    ensures var h := Head(DrainWrites(c, n, lo), end); h.told == lo.told && (h.sent == lo.sent || h.sent == end.sent)
  {
    assert lo.told + map[] == lo.told;
  }

  /** A higher term is written, then the proposers of a deposed leader are told. */
  lemma YieldPauses(c: Config, s: State, id: NodeId, msg: Message, lo: Said, hi: Said)
    requires Shaped(c, s) && id in c.servers && msg in s.net && msg.to == id && TermOf(msg) > s.nodes[id].term
    requires lo.told == s.outcomes && hi.told == s.outcomes + Deposed(s.nodes[id]) && hi.sent == {}
    ensures Pauses(c, s, id, OnDisk(StepDown(s.nodes[id], TermOf(msg), "")), lo, hi)
  {
    var n, m := s.nodes[id], StepDown(s.nodes[id], TermOf(msg), "");
    forall said | Between(lo, said, hi) ensures CanStop(c, s, id, OnDisk(m), said) {
      var some := ToldOf(FailedBy(n), said);
      SomeTold(s.outcomes, FailedBy(n), lo, said, hi);
      var t := YieldToSome(c, s, id, msg, some);
      StopsThere(c, s, id, Effect(m, {}, Failing(some)), t, said);
    }
  }

  lemma YieldStops(c: Config, s: State, id: NodeId, msg: Message)
    requires Shaped(c, s) && id in c.servers && msg in s.net && msg.to == id && TermOf(msg) > s.nodes[id].term
    ensures var n := s.nodes[id];
            Restartable(c, s, id, YieldWrites(n, TermOf(msg), Said({}, s.outcomes)), Yield(n, TermOf(msg), ""))
  {
    var n, lo := s.nodes[id], Said({}, s.outcomes);
    var end := Said({}, s.outcomes + Deposed(n));
    YieldPauses(c, s, id, msg, lo, end);
    StopsBefore(c, s, id, Write(OnDisk(StepDown(n, TermOf(msg), "")), lo), [], end);
  }

  // ---- votes ----

  lemma TimeoutStops(c: Config, s: State, id: NodeId)
    requires Shaped(c, s) && id in c.servers
    ensures var n := s.nodes[id];
            Restartable(c, s, id, TimeoutWrites(id, n, Said({}, s.outcomes)), OnTimeout(c, id, n))
  {
    var n, lo, e := s.nodes[id], Said({}, s.outcomes), OnTimeout(c, id, s.nodes[id]);
    var end := Said(e.sent, s.outcomes + e.told);
    assert s.outcomes + map[] == s.outcomes;
    var t := TimeoutIsSteps(c, s, id);
    PausesAt(c, s, id, e, t, lo, end);
    if n.role != Leader { StopsBefore(c, s, id, Write(OnDisk(e.node), lo), [], end); }
  }

  lemma VoteCallStops(c: Config, s: State, id: NodeId, req: VoteReq)
    requires Shaped(c, s) && id in c.servers && VoteCall(id, req) in s.net
    requires Genuine(c, req.version, req.clusterId) || req.term <= s.nodes[id].term
    ensures var n := s.nodes[id];
            Restartable(c, s, id, VoteCallWrites(c, n, req, Said({}, s.outcomes)), OnVoteCall(c, id, n, req))
  {
    if req.term > s.nodes[id].term { NewVoteStops(c, s, id, req); } else { OldVoteStops(c, s, id, req); }
  }

  /** A request of a term the member already knows: at most the vote is written. */
  lemma OldVoteStops(c: Config, s: State, id: NodeId, req: VoteReq)
    requires Shaped(c, s) && id in c.servers && VoteCall(id, req) in s.net && req.term <= s.nodes[id].term
    ensures var n := s.nodes[id];
            Restartable(c, s, id, VoteCallWrites(c, n, req, Said({}, s.outcomes)), OnVoteCall(c, id, n, req))
  {
    var n, lo, e := s.nodes[id], Said({}, s.outcomes), OnVoteCall(c, id, s.nodes[id], req);
    var end, ws := Said(e.sent, s.outcomes + e.told), VoteCallWrites(c, n, req, lo);
    assert s.outcomes + map[] == s.outcomes;
    var t := AnswerVoteIsSteps(c, s, id, req);
    PausesAt(c, s, id, e, t, lo, end);
    if |ws| > 0 {
      assert ws == [Write(OnDisk(e.node), lo)];
      StopsBefore(c, s, id, ws[0], [], end);
    }
  }

  /** A request of a new term: the term is written, proposers are told, and the vote is written. */
  lemma NewVoteStops(c: Config, s: State, id: NodeId, req: VoteReq)
    requires Shaped(c, s) && id in c.servers && VoteCall(id, req) in s.net
    requires Genuine(c, req.version, req.clusterId) && req.term > s.nodes[id].term
    ensures var n := s.nodes[id];
            Restartable(c, s, id, VoteCallWrites(c, n, req, Said({}, s.outcomes)), OnVoteCall(c, id, n, req))
  {
    var n, lo, e := s.nodes[id], Said({}, s.outcomes), OnVoteCall(c, id, s.nodes[id], req);
    var m, mid, end := StepDown(n, req.term, ""), Telling(lo, Deposed(n)), Said(e.sent, s.outcomes + e.told);
    if Grants(m, req) {
      var vote := Write(OnDisk(e.node), mid);
      var t := VoteCallIsSteps(c, s, id, req);
      PausesAt(c, s, id, e, t, mid, end);
      YieldPauses(c, s, id, VoteCall(id, req), lo, mid);
      assert AllStop(c, s, id, OnDisk(m), lo, [vote], end);
      StopsBefore(c, s, id, Write(OnDisk(m), lo), [vote], end);
    } else {
      RefusedVotePauses(c, s, id, req, lo, end);
      StopsBefore(c, s, id, Write(OnDisk(m), lo), [], end);
    }
  }

  lemma RefusedVotePauses(c: Config, s: State, id: NodeId, req: VoteReq, lo: Said, hi: Said)
    requires Shaped(c, s) && id in c.servers && VoteCall(id, req) in s.net
    requires Genuine(c, req.version, req.clusterId) && req.term > s.nodes[id].term
    requires !Grants(StepDown(s.nodes[id], req.term, ""), req) && lo.told == s.outcomes
    requires hi.told == s.outcomes + Deposed(s.nodes[id]) && hi.sent == OnVoteCall(c, id, s.nodes[id], req).sent
    ensures Pauses(c, s, id, OnDisk(StepDown(s.nodes[id], req.term, "")), lo, hi)
  {
    var n, m := s.nodes[id], StepDown(s.nodes[id], req.term, "");
    forall said | Between(lo, said, hi) ensures CanStop(c, s, id, OnDisk(m), said) {
      var some := ToldOf(FailedBy(n), said);
      SomeTold(s.outcomes, FailedBy(n), lo, said, hi);
      var e, u := RefusesTellingSome(c, s, id, req, some);
      StopsThere(c, s, id, e, u, said);
    }
  }

  /** A refusal, when the steps were cut while proposers were being told. */
  lemma RefusesTellingSome(c: Config, s: State, id: NodeId, req: VoteReq, some: set<nat>) returns (e: Effect, u: State)
    requires Shaped(c, s) && id in c.servers && VoteCall(id, req) in s.net && some <= FailedBy(s.nodes[id])
    requires Genuine(c, req.version, req.clusterId) && req.term > s.nodes[id].term
    requires !Grants(StepDown(s.nodes[id], req.term, ""), req)
    ensures Performs(c, s, id, e, u) && e.told == Failing(some)
    ensures e.node == StepDown(s.nodes[id], req.term, "") && e.sent == OnVoteCall(c, id, s.nodes[id], req).sent
  {
    var m := StepDown(s.nodes[id], req.term, "");
    var first, reply := Effect(m, {}, Failing(some)), Effect(m, OnVoteCall(c, id, s.nodes[id], req).sent, map[]);
    var t := YieldToSome(c, s, id, VoteCall(id, req), some);
    u := RefusesAfterYield(c, t, id, s.nodes[id], req);
    ThenPerforms(c, s, id, first, t, reply, u);
    e := Then(first, reply);
  }

  lemma RefusesAfterYield(c: Config, t: State, id: NodeId, n: NodeState, req: VoteReq) returns (u: State)
    requires Shaped(c, t) && id in c.servers && VoteCall(id, req) in t.net && t.nodes[id] == StepDown(n, req.term, "")
    requires Genuine(c, req.version, req.clusterId) && req.term > n.term && !Grants(t.nodes[id], req)
    ensures Performs(c, t, id, Effect(t.nodes[id], OnVoteCall(c, id, n, req).sent, map[]), u)
  {
    u := AnswerVoteIsSteps(c, t, id, req);
  }

  lemma VoteReplyStops(c: Config, s: State, id: NodeId, from: NodeId, sent: nat, resp: VoteResp)
    requires Shaped(c, s) && id in c.servers
    requires VoteReturn(id, from, sent, resp) in s.net && (from, sent) in s.past[id].pending
    ensures var n := s.nodes[id];
            Restartable(c, s, id, VoteReplyWrites(c, id, n, sent, resp, Said({}, s.outcomes)),
                        OnVoteReply(c, id, n, sent, resp))
  {
    var n, lo, e := s.nodes[id], Said({}, s.outcomes), OnVoteReply(c, id, s.nodes[id], sent, resp);
    if resp.term > n.term {
      YieldStops(c, s, id, VoteReturn(id, from, sent, resp));
    } else {
      var end := Said(e.sent, s.outcomes + e.told);
      assert s.outcomes + map[] == s.outcomes;
      var t := VoteReplyIsSteps(c, s, id, from, sent, resp);
      PausesAt(c, s, id, e, t, lo, end);
      if |VoteReplyWrites(c, id, n, sent, resp, lo)| > 0 { StopsBefore(c, s, id, Write(OnDisk(e.node), lo), [], end); }
    }
  }

  // ---- append calls ----

  lemma LearnStops(c: Config, s: State, id: NodeId, before: seq<LogEntry>, req: AppendReq, lo: Said, end: Said)
    requires Shaped(c, s) && id in c.servers && AppendCall(id, req) in s.net && req.term == s.nodes[id].term
    requires PrevMatches(before, req) && s.nodes[id].log == Reconcile(before, req.prevIndex, req.entries)
    requires lo == Said({}, s.outcomes) && end.sent <= s.net && end.told == s.outcomes + Learn(c, s.nodes[id], req).told
    ensures AllStop(c, s, id, OnDisk(s.nodes[id]), lo, LearnWrites(c, s.nodes[id], req, lo), end)
  {
    var n, m := s.nodes[id], FollowerCommit(s.nodes[id], req);
    if m.commit > n.commit {
      var t := LearnIsStep(c, s, id, before, req);
      CommitStops(c, s, id, m, t, lo, end);
    } else {
      assert s.outcomes + map[] == s.outcomes;
      PausesHere(c, s, id, lo, end);
    }
  }

  /** A commit index is written, then entries are applied one by one. */
  lemma CommitStops(c: Config, s: State, id: NodeId, m: NodeState, t: State, lo: Said, end: Said)
    requires Shaped(c, s) && id in c.servers && Performs(c, s, id, Idle(m), t)
    requires lo == Said({}, s.outcomes) && end.sent <= s.net && end.told == s.outcomes + Drain(c, m).told
    ensures AllStop(c, s, id, OnDisk(s.nodes[id]), lo, [Write(OnDisk(m), lo)] + DrainWrites(c, m, lo), end)
  {
    assert s.outcomes + map[] == s.outcomes;
    DrainStops(c, t, id, lo, end);
    AllStopLater(c, s, id, Idle(m), t, OnDisk(m), lo, DrainWrites(c, m, lo), end);
    StopsBefore(c, s, id, Write(OnDisk(m), lo), DrainWrites(c, m, lo), end);
  }

  /** A request of the member's own term, at a member that does not lead. */
  lemma FollowStops(c: Config, s: State, id: NodeId, req: AppendReq)
    requires Shaped(c, s) && id in c.servers && AppendCall(id, req) in s.net && s.nodes[id].role != Leader
    requires Genuine(c, req.version, req.clusterId) && req.term == s.nodes[id].term
    ensures var n := s.nodes[id];
            Restartable(c, s, id, FollowWrites(c, n, req, Said({}, s.outcomes)), OnAppendCall(c, id, n, req))
  {
    var n, lo, e := s.nodes[id], Said({}, s.outcomes), OnAppendCall(c, id, s.nodes[id], req);
    var (m, resp) := AcceptAppend(n, req);
    var end, rest := Said(e.sent, s.outcomes + e.told), if resp.success then LearnWrites(c, m, req, lo) else [];
    var t := AcceptIsStep(c, s, id, req);
    AcceptedStops(c, s, id, req, t, lo, end);
    AllStopLater(c, s, id, Accepted(id, n, req), t, OnDisk(m), lo, rest, end);
    if |RepairWrites(n, req, lo)| > 0 {
      StopsBefore(c, s, id, Write(OnDisk(m), lo), rest, end);
    } else {
      assert [] + rest == rest;
      assert OnDisk(m) == OnDisk(n);
    }
  }

  lemma AcceptedStops(c: Config, s: State, id: NodeId, req: AppendReq, t: State, lo: Said, end: Said)
    requires Shaped(c, s) && id in c.servers && AppendCall(id, req) in s.net && s.nodes[id].role != Leader
    requires Genuine(c, req.version, req.clusterId) && req.term == s.nodes[id].term
    requires Performs(c, s, id, Accepted(id, s.nodes[id], req), t) && lo == Said({}, s.outcomes)
    requires var e := OnAppendCall(c, id, s.nodes[id], req); end == Said(e.sent, s.outcomes + e.told)
    ensures var (m, resp) := AcceptAppend(s.nodes[id], req);
            AllStop(c, t, id, OnDisk(m), lo, if resp.success then LearnWrites(c, m, req, lo) else [], end)
  {
    var n := s.nodes[id];
    var (m, resp) := AcceptAppend(n, req);
    assert t.outcomes == s.outcomes by { assert Deposed(n) == map[]; }
    if resp.success {
      FollowerTells(c, id, n, req);
      LearnStops(c, t, id, n.log, req, lo, end);
    } else {
      PausesHere(c, t, id, lo, end);
    }
  }

  lemma FollowerTells(c: Config, id: NodeId, n: NodeState, req: AppendReq)
    requires Genuine(c, req.version, req.clusterId) && req.term == n.term && n.role != Leader
    requires AcceptAppend(n, req).1.success
    ensures var e := OnAppendCall(c, id, n, req);
            e.told == Learn(c, AcceptAppend(n, req).0, req).told && e.sent == Accepted(id, n, req).sent
  {
    var learn := Learn(c, AcceptAppend(n, req).0, req);
    LearnSendsNothing(c, AcceptAppend(n, req).0, req);
    assert Deposed(n) + learn.told == learn.told;
  }

  lemma LearnSendsNothing(c: Config, n: NodeState, req: AppendReq)
    ensures Learn(c, n, req).sent == {}
  {
    DrainSendsNothing(c, FollowerCommit(n, req));
  }

  lemma DrainSendsNothing(c: Config, n: NodeState)
    ensures Drain(c, n).sent == {}
    decreases n.commit - n.applied
  {
  }

  lemma AcceptAfterYield(n: NodeState, req: AppendReq)
    requires req.term > n.term
    ensures AcceptAppend(StepDown(n, req.term, ""), req) == AcceptAppend(n, req)
  {
    assert StepDown(StepDown(n, req.term, ""), req.term, req.leader) == StepDown(n, req.term, req.leader);
  }

  /** An append call of a leader: by Election Safety it is never one of the member's own term to a leader. */
  lemma AppendCallStops(c: Config, s: State, id: NodeId, req: AppendReq)
    requires Shaped(c, s) && id in c.servers && AppendCall(id, req) in s.net
    requires Genuine(c, req.version, req.clusterId) || req.term <= s.nodes[id].term
    requires req.term == s.nodes[id].term ==> s.nodes[id].role != Leader
    ensures var n := s.nodes[id];
            Restartable(c, s, id, AppendCallWrites(c, n, req, Said({}, s.outcomes)), OnAppendCall(c, id, n, req))
  {
    if !Genuine(c, req.version, req.clusterId) || req.term < s.nodes[id].term {
      StaleCallStops(c, s, id, req);
    } else if req.term == s.nodes[id].term {
      FollowStops(c, s, id, req);
      NothingToYield(c, s.nodes[id], req, Said({}, s.outcomes));
    } else {
      NewLeaderStops(c, s, id, req);
    }
  }

  lemma StaleCallStops(c: Config, s: State, id: NodeId, req: AppendReq)
    requires Shaped(c, s) && id in c.servers && AppendCall(id, req) in s.net && req.term <= s.nodes[id].term
    requires !Genuine(c, req.version, req.clusterId) || req.term < s.nodes[id].term
    ensures Restartable(c, s, id, [], OnAppendCall(c, id, s.nodes[id], req))
  {
    var t := StaleIsStep(c, s, id, req);
    OnlySends(c, s, id, OnAppendCall(c, id, s.nodes[id], req), t);
  }

  lemma NothingToYield(c: Config, n: NodeState, req: AppendReq, said: Said)
    requires Genuine(c, req.version, req.clusterId) && req.term == n.term && n.role != Leader
    ensures AppendCallWrites(c, n, req, said) == FollowWrites(c, n, req, said)
  {
    assert said.told + Deposed(n) == said.told;
    assert [] + FollowWrites(c, n, req, said) == FollowWrites(c, n, req, said);
  }

  lemma NewLeaderStops(c: Config, s: State, id: NodeId, req: AppendReq)
    requires Shaped(c, s) && id in c.servers && AppendCall(id, req) in s.net
    requires Genuine(c, req.version, req.clusterId) && req.term > s.nodes[id].term
    ensures var n := s.nodes[id];
            Restartable(c, s, id, AppendCallWrites(c, n, req, Said({}, s.outcomes)), OnAppendCall(c, id, n, req))
  {
    var n, msg, lo := s.nodes[id], AppendCall(id, req), Said({}, s.outcomes);
    var m, mid, e := StepDown(n, req.term, ""), Telling(lo, Deposed(n)), OnAppendCall(c, id, n, req);
    var end, rest := Said(e.sent, s.outcomes + e.told), FollowWrites(c, n, req, mid);
    var t := YieldIsSteps(c, s, id, msg);
    FollowStops(c, t, id, req);
    AcceptAfterYield(n, req);
    YieldThenAppend(c, id, n, req);
    ToldInTurn(s.outcomes, Deposed(n), OnAppendCall(c, id, m, req).told);
    assert FollowWrites(c, m, req, mid) == rest;
    AllStopLater(c, s, id, Yield(n, req.term, ""), t, OnDisk(m), mid, rest, end);
    NewLeaderPauses(c, s, id, req, lo, Head(rest, end));
    StopsBefore(c, s, id, Write(OnDisk(m), lo), rest, end);
  }

  lemma ToldInTurn(before: map<nat, Outcome>, a: map<nat, Outcome>, b: map<nat, Outcome>)
    ensures before + a + b == before + (a + b)
  {
  }

  lemma NewLeaderPauses(c: Config, s: State, id: NodeId, req: AppendReq, lo: Said, hi: Said)
    requires Shaped(c, s) && id in c.servers && AppendCall(id, req) in s.net
    requires Genuine(c, req.version, req.clusterId) && req.term > s.nodes[id].term && lo == Said({}, s.outcomes)
    requires var e := OnAppendCall(c, id, s.nodes[id], req);
             var ws := FollowWrites(c, s.nodes[id], req, Telling(lo, Deposed(s.nodes[id])));
             hi == Head(ws, Said(e.sent, s.outcomes + e.told))
    ensures Pauses(c, s, id, OnDisk(StepDown(s.nodes[id], req.term, "")), lo, hi)
  {
    var n := s.nodes[id];
    var ws := FollowWrites(c, n, req, Telling(lo, Deposed(n)));
    if |ws| > 0 {
      FollowHead(c, n, req, Telling(lo, Deposed(n)));
      YieldPauses(c, s, id, AppendCall(id, req), lo, hi);
    } else {
      NothingNew(c, id, n, req, Telling(lo, Deposed(n)));
      NothingNewPauses(c, s, id, req, lo, hi);
    }
  }

  lemma FollowHead(c: Config, n: NodeState, req: AppendReq, said: Said)
    requires |FollowWrites(c, n, req, said)| > 0
    ensures FollowWrites(c, n, req, said)[0].said == said
  {
  }

  lemma NothingNew(c: Config, id: NodeId, n: NodeState, req: AppendReq, said: Said)
    requires Genuine(c, req.version, req.clusterId) && req.term >= n.term && |FollowWrites(c, n, req, said)| == 0
    ensures AcceptAppend(n, req).0.log == n.log
    ensures OnAppendCall(c, id, n, req) == Accepted(id, n, req)
  {
    assert Deposed(n) + map[] == Deposed(n);
  }

  /** Nothing is written after the term, so the reply may be out as well. */
  lemma NothingNewPauses(c: Config, s: State, id: NodeId, req: AppendReq, lo: Said, hi: Said)
    requires Shaped(c, s) && id in c.servers && AppendCall(id, req) in s.net
    requires Genuine(c, req.version, req.clusterId) && req.term > s.nodes[id].term && lo == Said({}, s.outcomes)
    requires AcceptAppend(s.nodes[id], req).0.log == s.nodes[id].log
    requires hi.sent == Accepted(id, s.nodes[id], req).sent && hi.told == s.outcomes + Deposed(s.nodes[id])
    ensures Pauses(c, s, id, OnDisk(StepDown(s.nodes[id], req.term, "")), lo, hi)
  {
    var n, m := s.nodes[id], StepDown(s.nodes[id], req.term, "");
    forall said | Between(lo, said, hi) ensures CanStop(c, s, id, OnDisk(m), said) {
      var some := ToldOf(FailedBy(n), said);
      SomeTold(s.outcomes, FailedBy(n), lo, said, hi);
      var e := Effect(AcceptAppend(n, req).0, Accepted(id, n, req).sent, Failing(some));
      var t := AcceptToSome(c, s, id, req, some);
      StopsThere(c, s, id, e, t, said);
    }
  }

  lemma AcceptToSome(c: Config, s: State, id: NodeId, req: AppendReq, some: set<nat>) returns (t: State)
    requires Shaped(c, s) && id in c.servers && AppendCall(id, req) in s.net && some <= FailedBy(s.nodes[id])
    requires Genuine(c, req.version, req.clusterId) && req.term > s.nodes[id].term
    ensures var n := s.nodes[id];
            Performs(c, s, id, Effect(AcceptAppend(n, req).0, Accepted(id, n, req).sent, Failing(some)), t)
  {
    var n, m := s.nodes[id], StepDown(s.nodes[id], req.term, "");
    var u := YieldToSome(c, s, id, AppendCall(id, req), some);
    t := AcceptIsStep(c, u, id, req);
    ThenPerforms(c, s, id, Effect(m, {}, Failing(some)), u, Accepted(id, m, req), t);
    YieldThenAccept(id, n, req, some);
  }

  lemma YieldThenAccept(id: NodeId, n: NodeState, req: AppendReq, some: set<nat>)
    requires req.term > n.term
    ensures var m := StepDown(n, req.term, "");
            Then(Effect(m, {}, Failing(some)), Accepted(id, m, req))
            == Effect(AcceptAppend(n, req).0, Accepted(id, n, req).sent, Failing(some))
  {
    AcceptAfterYield(n, req);
    assert Failing(some) + Deposed(StepDown(n, req.term, "")) == Failing(some);
  }

  // ---- the leader's side ----

  lemma AppendReplyStops(
    c: Config, s: State, id: NodeId, peers: seq<NodeId>, from: NodeId, sent: nat, resp: AppendResp)
    requires ConfigOk(c) && Inv(c, s) && id in c.servers && Lists(c, id, peers)
    requires AppendReturn(id, from, sent, resp) in s.net
    ensures 1 <= c.quorum <= |peers| + 1
    ensures var n := s.nodes[id];
            Restartable(c, s, id, AppendReplyWrites(c, n, peers, from, sent, resp, Said({}, s.outcomes)),
                        OnAppendReply(c, id, n, peers, from, sent, resp))
  {
    QuorumFits(c, id, peers);
    var n := s.nodes[id];
    if resp.term > n.term {
      YieldStops(c, s, id, AppendReturn(id, from, sent, resp));
    } else if n.role == Leader && sent == n.term && resp.success {
      ProgressStops(c, s, id, peers, from, resp);
    } else {
      NoProgressStops(c, s, id, peers, from, sent, resp);
    }
  }

  lemma ProgressStops(c: Config, s: State, id: NodeId, peers: seq<NodeId>, from: NodeId, resp: AppendResp)
    requires ConfigOk(c) && Inv(c, s) && id in c.servers && Lists(c, id, peers) && 1 <= c.quorum <= |peers| + 1
    requires AppendReturn(id, from, s.nodes[id].term, resp) in s.net
    requires s.nodes[id].role == Leader && resp.term <= s.nodes[id].term
    ensures var m := OnAppendResp(s.nodes[id], from, s.nodes[id].term, resp);
            Restartable(c, s, id, AdvanceWrites(c, m, peers, Said({}, s.outcomes)), Advance(c, id, m, peers))
  {
    RecordedChoice(c, s, id, peers, from, s.nodes[id].term, resp);
    var t := RecordIsStep(c, s, id, from, s.nodes[id].term, resp);
    AfterRecordStops(c, s, id, peers, OnAppendResp(s.nodes[id], from, s.nodes[id].term, resp), t);
  }

  lemma AfterRecordStops(c: Config, s: State, id: NodeId, peers: seq<NodeId>, m: NodeState, t: State)
    requires id in c.servers && id in s.nodes && 1 <= c.quorum <= |peers| + 1 && m.role == Leader
    requires Performs(c, s, id, Idle(m), t) && OnDisk(m) == OnDisk(s.nodes[id])
    requires var choice := ChooseCommit(c, m, peers); choice.Some? ==> Committable(c, id, m, choice.value)
    ensures Restartable(c, s, id, AdvanceWrites(c, m, peers, Said({}, s.outcomes)), Advance(c, id, m, peers))
  {
    var lo, e := Said({}, s.outcomes), Advance(c, id, m, peers);
    assert s.outcomes + map[] == s.outcomes;
    AdvanceStops(c, t, id, peers);
    var end := Said(e.sent, s.outcomes + e.told);
    AllStopLater(c, s, id, Idle(m), t, OnDisk(m), lo, AdvanceWrites(c, m, peers, lo), end);
  }

  lemma NoProgressStops(
    c: Config, s: State, id: NodeId, peers: seq<NodeId>, from: NodeId, sent: nat, resp: AppendResp)
    requires ConfigOk(c) && Inv(c, s) && id in c.servers && Lists(c, id, peers) && 1 <= c.quorum <= |peers| + 1
    requires AppendReturn(id, from, sent, resp) in s.net && resp.term <= s.nodes[id].term
    requires s.nodes[id].role != Leader || sent != s.nodes[id].term || !resp.success
    ensures Restartable(c, s, id, [], OnAppendReply(c, id, s.nodes[id], peers, from, sent, resp))
  {
    var t := AppendReplyIsSteps(c, s, id, peers, from, sent, resp);
    OnlySends(c, s, id, OnAppendReply(c, id, s.nodes[id], peers, from, sent, resp), t);
  }

  lemma AdvanceStops(c: Config, s: State, id: NodeId, peers: seq<NodeId>)
    requires Shaped(c, s) && id in c.servers && s.nodes[id].role == Leader && 1 <= c.quorum <= |peers| + 1
    requires var choice := ChooseCommit(c, s.nodes[id], peers);
             choice.Some? ==> Committable(c, id, s.nodes[id], choice.value)
    ensures var n := s.nodes[id];
            Restartable(c, s, id, AdvanceWrites(c, n, peers, Said({}, s.outcomes)), Advance(c, id, n, peers))
  {
    var n, lo, e := s.nodes[id], Said({}, s.outcomes), Advance(c, id, s.nodes[id], peers);
    var choice, end := ChooseCommit(c, n, peers), Said(e.sent, s.outcomes + e.told);
    if choice.Some? {
      var m := n.(commit := choice.value);
      AdvanceSends(c, id, m);
      BroadcastStops(c, s, id, choice.value, lo, end);
    } else {
      assert s.outcomes + map[] == s.outcomes;
      PausesHere(c, s, id, lo, end);
    }
  }

  /** Applying changes nothing that a request to a peer is made of. */
  lemma AdvanceSends(c: Config, id: NodeId, n: NodeState)
    ensures Then(Drain(c, n), Replicate(c, id, Drain(c, n).node)).sent == Replicate(c, id, n).sent
    ensures Then(Drain(c, n), Replicate(c, id, Drain(c, n).node)).told == Drain(c, n).told
  {
    DrainSendsNothing(c, n);
    DrainKeeps(c, n);
    SameRequests(c, id, n, Drain(c, n).node);
    assert Drain(c, n).told + map[] == Drain(c, n).told;
  }

  lemma SameRequests(c: Config, id: NodeId, n: NodeState, m: NodeState)
    requires m.role == n.role && m.term == n.term && m.log == n.log && m.commit == n.commit && m.nexts == n.nexts
    ensures Replicate(c, id, m).sent == Replicate(c, id, n).sent
  {
    forall p ensures AppendReqOf(c, id, n, p) == AppendReqOf(c, id, m, p) { }
  }

  lemma DrainKeeps(c: Config, n: NodeState)
    ensures var m := Drain(c, n).node;
            m.role == n.role && m.term == n.term && m.log == n.log && m.commit == n.commit && m.nexts == n.nexts
    decreases n.commit - n.applied
  {
  }

  /** The requests to the peers may be out as soon as the commit index is written. */
  lemma BroadcastStops(c: Config, s: State, id: NodeId, k: nat, lo: Said, end: Said)
    requires Shaped(c, s) && id in c.servers && s.nodes[id].role == Leader && Committable(c, id, s.nodes[id], k)
    requires lo == Said({}, s.outcomes) && end.sent == Replicate(c, id, s.nodes[id].(commit := k)).sent
    requires end.told == s.outcomes + Drain(c, s.nodes[id].(commit := k)).told
    ensures AllStop(c, s, id, OnDisk(s.nodes[id]), lo, CommitWrites(c, s.nodes[id], k, lo), end)
  {
    var n, m := s.nodes[id], s.nodes[id].(commit := k);
    var t := CommitIsStep(c, s, id, k);
    var u := ReplicateIsSteps(c, t, id);
    AfterIdle(c, s, id, m, t, Replicate(c, id, m), u);
    assert s.outcomes + map[] == s.outcomes;
    DrainStops(c, u, id, lo, end);
    AllStopLater(c, s, id, Replicate(c, id, m), u, OnDisk(m), lo, DrainWrites(c, m, lo), end);
    StopsBefore(c, s, id, Write(OnDisk(m), lo), DrainWrites(c, m, lo), end);
  }

  lemma ProposeStops(c: Config, s: State, id: NodeId, command: Command, ticket: nat)
    requires Shaped(c, s) && id in c.servers && ticket !in s.tickets
    ensures var n := s.nodes[id];
            Restartable(c, s, id, ProposeWrites(n, command, ticket, Said({}, s.outcomes)),
                        OnPropose(c, id, n, command, ticket))
  {
    var n, lo, e := s.nodes[id], Said({}, s.outcomes), OnPropose(c, id, s.nodes[id], command, ticket);
    var end := Said(e.sent, s.outcomes + e.told);
    assert s.outcomes + map[] == s.outcomes;
    var t := ProposeIsSteps(c, s, id, command, ticket);
    PausesAt(c, s, id, e, t, lo, end);
    if n.role == Leader { StopsBefore(c, s, id, Write(OnDisk(e.node), lo), [], end); }
  }

  // ---- crash and recovery ----

  /** Recovery may itself be cut short. */
  lemma RecoverStops(c: Config, s: State, id: NodeId)
    requires Shaped(c, s) && id in c.servers
    ensures var n := s.nodes[id];
            Restartable(c, s, id, DrainWrites(c, Restart(n), Said({}, s.outcomes)), OnRecover(c, n))
  {
    var n, m, lo := s.nodes[id], Restart(s.nodes[id]), Said({}, s.outcomes);
    var t := DoCrash(c, s, id);
    LeadsOneStep(c, s, Crash(id));
    assert s.outcomes + map[] == s.outcomes;
    assert Performs(c, s, id, Idle(m), t);
    DrainSendsNothing(c, m);
    var end := Said({}, s.outcomes + Drain(c, m).told);
    DrainStops(c, t, id, lo, end);
    AllStopLater(c, s, id, Idle(m), t, OnDisk(m), lo, DrainWrites(c, m, lo), end);
  }

  lemma DrainTellsNobody(c: Config, n: NodeState)
    requires n.waiters == map[]
    ensures Drain(c, n).told == map[]
    decreases n.commit - n.applied
  {
    if CanApply(c, n) {
      assert ApplyNext(c, n).waiters == map[];
      DrainTellsNobody(c, ApplyNext(c, n));
    }
  }

  lemma StoppedThen(s: State, id: NodeId, d: Disk, said: Said, t: State, e: Effect, u: State)
    requires StoppedAt(s, id, d, said, t) && Performed(t, id, e, u) && e.told == map[]
    ensures u.nodes == s.nodes[id := e.node] && s.net + said.sent <= u.net && u.outcomes == said.told
  {
  }

  lemma RecoverStopped(c: Config, s: State, id: NodeId, d: Disk, said: Said) returns (u: State)
    requires id in c.servers && CanStop(c, s, id, d, said)
    ensures Leads(c, s, u) && u.nodes == s.nodes[id := Drain(c, Restarted(d)).node]
    ensures s.net + said.sent <= u.net && u.outcomes == said.told
  {
    var t :| Shaped(c, t) && Leads(c, s, t) && StoppedAt(s, id, d, said, t);
    assert Restart(t.nodes[id]) == Restarted(d);
    u := RecoverIsSteps(c, t, id);
    LeadsOn(c, s, t, u);
    DrainTellsNobody(c, Restarted(d));
    StoppedThen(s, id, d, said, t, OnRecover(c, t.nodes[id]), u);
  }

  /** From any point where a member may stop, crash and recovery is again a path of
      cluster steps: the member comes back as its disk restarted, with the committed
      rest applied; no other member has moved; every message it had handed out is in the
      network; and proposers know exactly what they had been told. */
  lemma RecoverAfterStop(c: Config, run: seq<State>, id: NodeId, d: Disk, said: Said) returns (longer: seq<State>)
    requires IsRun(c, run) && id in c.servers && CanStop(c, run[|run| - 1], id, d, said)
    ensures IsRun(c, longer) && run <= longer
    ensures longer[|longer| - 1].nodes == run[|run| - 1].nodes[id := Drain(c, Restarted(d)).node]
    ensures run[|run| - 1].net + said.sent <= longer[|longer| - 1].net && longer[|longer| - 1].outcomes == said.told
  {
    var u := RecoverStopped(c, run[|run| - 1], id, d, said);
    longer := LeadsStaysReachable(c, run, u);
  }

  /** What a handler's disk holds after its k-th write, and what it had said by then. */
  function DiskAfter(n: NodeState, ws: seq<Write>, k: nat): Disk
    requires k <= |ws|
  {
    if k == 0 then OnDisk(n) else ws[k - 1].disk
  }

  function SaidBy(told: map<nat, Outcome>, ws: seq<Write>, k: nat): Said
    requires k <= |ws|
  {
    if k == 0 then Said({}, told) else ws[k - 1].said
  }

  /** A handler is cut off after its k-th write and any part of what it says before the next:
      the crash and the recovery extend the run. */
  lemma CrashAnywhere(c: Config, run: seq<State>, id: NodeId, ws: seq<Write>, e: Effect, k: nat, said: Said)
    returns (longer: seq<State>)
    requires IsRun(c, run) && id in c.servers && id in run[|run| - 1].nodes && k <= |ws|
    requires Restartable(c, run[|run| - 1], id, ws, e)
    requires var before := run[|run| - 1].outcomes;
             Between(SaidBy(before, ws, k), said, Head(ws[k..], Said(e.sent, before + e.told)))
    ensures IsRun(c, longer) && run <= longer
    ensures var s, u := run[|run| - 1], longer[|longer| - 1];
            && u.nodes == s.nodes[id := Drain(c, Restarted(DiskAfter(s.nodes[id], ws, k))).node]
            && s.net + said.sent <= u.net && u.outcomes == said.told
  {
    var s := run[|run| - 1];
    var lo, end := Said({}, s.outcomes), Said(e.sent, s.outcomes + e.told);
    StopsAfter(c, s, id, OnDisk(s.nodes[id]), lo, ws, end, k, said);
    longer := RecoverAfterStop(c, run, id, DiskAfter(s.nodes[id], ws, k), said);
  }

  // ---- along runs, where every call is a member's own ----

  lemma CallsStopInRuns(c: Config, run: seq<State>, id: NodeId, msg: Message)
    requires IsRun(c, run) && id in c.servers && msg in run[|run| - 1].net && msg.to == id
    ensures var s := run[|run| - 1]; var lo := Said({}, s.outcomes);
            && id in s.nodes
            && (msg.VoteCall? ==> Restartable(c, s, id, VoteCallWrites(c, s.nodes[id], msg.vreq, lo),
                                              OnVoteCall(c, id, s.nodes[id], msg.vreq)))
            && (msg.AppendCall? ==> Restartable(c, s, id, AppendCallWrites(c, s.nodes[id], msg.areq, lo),
                                                OnAppendCall(c, id, s.nodes[id], msg.areq)))
  {
    var s := run[|run| - 1];
    RunInv(c, run, |run| - 1);
    CallsAreOurs(c, run, |run| - 1, msg);
    if msg.VoteCall? {
      VoteCallStops(c, s, id, msg.vreq);
    } else if msg.AppendCall? {
      NotToItsLeader(c, s, id, msg.areq);
      AppendCallStops(c, s, id, msg.areq);
    }
  }

  lemma NotToItsLeader(c: Config, s: State, id: NodeId, req: AppendReq)
    requires Inv(c, s) && id in c.servers && AppendCall(id, req) in s.net
    ensures req.term == s.nodes[id].term ==> s.nodes[id].role != Leader
  {
    assert NodeOk(c, s, id) && MessageOk(c, s, AppendCall(id, req));
  }
}
