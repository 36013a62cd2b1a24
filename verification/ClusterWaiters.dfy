/**
  Proposal results are one's own.  In every reachable state each registered waiter
  belongs to a current leader and waits above last_applied for the entry its
  proposer appended in this term; a proposer is told at most one thing, and a
  result it is told is the one its own committed command produced.
 */
module ClusterWaiters {
  import opened Models
  import opened RaftNode
  import opened Cluster
  import opened ClusterInvariant
  import opened ClusterSteps
  import opened ClusterSafety
  import opened ClusterResults

  /** What applying entry k of a log reports, when all entries up to k apply. */
  function ResultAt(c: Config, log: seq<LogEntry>, k: nat): Option<Result>
    requires 1 <= k < |log|
  {
    match Replay(c, log, k - 1)
    case None => None
    case Some(app) =>
      match c.apply(app, k, log[k].term, log[k])
      case Applied(_, result) => Some(result)
      case Failed => None
  }

  lemma ResultPrefix(c: Config, a: seq<LogEntry>, b: seq<LogEntry>, j: nat, k: nat)
    requires Has(a, b, j) && 1 <= k <= j
    ensures k < |a| && k < |b| && ResultAt(c, a, k) == ResultAt(c, b, k)
  {
    ReplayPrefix(c, a, b, j, k - 1);
    HasAt(a, b, j, k);
  }

  // ---- the invariant ----

  /** The proposed entry is on the log of the leader that accepted it. */
  ghost predicate TicketOk(R: Reigns, t: Ticket) {
    && t.term in R && R[t.term].leader == t.node
    && 1 <= t.index < |R[t.term].log|
    && R[t.term].log[t.index] == LogEntry(t.index, t.term, Carries(t.command))
  }

  ghost predicate WaiterOk(s: State, id: NodeId, k: nat) {
    id in s.nodes && k in s.nodes[id].waiters ==>
      var n := s.nodes[id];
      && n.role == Leader && n.applied < k
      && n.waiters[k] in s.tickets && n.waiters[k] !in s.outcomes
      && var t := s.tickets[n.waiters[k]];
      t.node == id && t.term == n.term && t.index == k
  }

  ghost predicate DoneOk(c: Config, R: Reigns, C: Commits, t: Ticket, r: Result) {
    && TicketOk(R, t)
    && Justified(R, C, R[t.term].log, t.index, t.term)
    && ResultAt(c, R[t.term].log, t.index) == Some(r)
  }

  ghost predicate OutcomeOk(c: Config, s: State, t: nat) {
    t in s.outcomes ==>
      && t in s.tickets
      && (s.outcomes[t].Done? ==> DoneOk(c, s.reigns, s.commits, s.tickets[t], s.outcomes[t].result))
  }

  ghost predicate SameEntry(s: State, t: nat, u: nat) {
    && t in s.tickets && u in s.tickets
    && s.tickets[t].term == s.tickets[u].term && s.tickets[t].index == s.tickets[u].index
  }

  ghost predicate Answers(c: Config, s: State) {
    && (forall id, k {:trigger WaiterOk(s, id, k)} :: WaiterOk(s, id, k))
    && (forall t {:trigger TicketOk(s.reigns, s.tickets[t])} :: t in s.tickets ==> TicketOk(s.reigns, s.tickets[t]))
    && (forall t {:trigger OutcomeOk(c, s, t)} :: OutcomeOk(c, s, t))
    && (forall t, u {:trigger SameEntry(s, t, u)} :: SameEntry(s, t, u) ==> t == u)
  }

  // ---- growth ----

  lemma TicketOkGrows(R: Reigns, S: Reigns, actor: NodeId, t: Ticket)
    requires ReignsGrow(R, S, actor) && TicketOk(R, t)
    ensures TicketOk(S, t)
  {
    assert ReignGrows(R, S, t.term, actor);
  }

  lemma DoneOkGrows(c: Config, s: State, s': State, actor: NodeId, t: Ticket, r: Result)
    requires Grows(c, s, s', actor) && DoneOk(c, s.reigns, s.commits, t, r)
    ensures DoneOk(c, s'.reigns, s'.commits, t, r)
  {
    assert ReignGrows(s.reigns, s'.reigns, t.term, actor);
    var log, log' := s.reigns[t.term].log, s'.reigns[t.term].log;
    TicketOkGrows(s.reigns, s'.reigns, actor, t);
    JustifiedGrows(s.reigns, s'.reigns, s.commits, s'.commits, actor, log, t.index, t.term, t.term);
    JustifiedLonger(s'.reigns, s'.commits, log, log', t.index, t.term);
    HasPrefix(log, log, log', t.index);
    ResultPrefix(c, log, log', t.index, t.index);
  }

  /** A waiter of the actor that survives a step as it was. */
  ghost predicate StillWaits(n: NodeState, m: NodeState, k: nat) {
    && k in n.waiters && k in m.waiters && m.waiters[k] == n.waiters[k]
    && m.role == n.role && m.term == n.term && m.applied < k
  }

  /** A step that answers nobody: its waiters are among those that were there. */
  lemma KeepAnswers(c: Config, s: State, s': State, id: NodeId)
    requires Answers(c, s) && Grows(c, s, s', id)
    requires s'.tickets == s.tickets && s'.outcomes == s.outcomes
    requires forall k {:trigger StillWaits(s.nodes[id], s'.nodes[id], k)} ::
               k in s'.nodes[id].waiters ==> StillWaits(s.nodes[id], s'.nodes[id], k)
    ensures Answers(c, s')
  {
    forall x, k ensures WaiterOk(s', x, k) {
      assert WaiterOk(s, x, k);
      assert x == id && k in s'.nodes[id].waiters ==> StillWaits(s.nodes[id], s'.nodes[id], k);
    }
    forall t | t in s'.tickets ensures TicketOk(s'.reigns, s'.tickets[t]) {
      assert TicketOk(s.reigns, s.tickets[t]);
      TicketOkGrows(s.reigns, s'.reigns, id, s.tickets[t]);
    }
    forall t ensures OutcomeOk(c, s', t) {
      assert OutcomeOk(c, s, t);
      if t in s.outcomes && s.outcomes[t].Done? { DoneOkGrows(c, s, s', id, s.tickets[t], s.outcomes[t].result); }
    }
    forall t, u | SameEntry(s', t, u) ensures t == u { assert SameEntry(s, t, u); }
  }

  /** No two waiters hold the same ticket. */
  lemma OneWaiter(s: State, id: NodeId, j: nat, x: NodeId, k: nat)
    requires WaiterOk(s, id, j) && WaiterOk(s, x, k)
    requires id in s.nodes && x in s.nodes && j in s.nodes[id].waiters && k in s.nodes[x].waiters
    requires s.nodes[id].waiters[j] == s.nodes[x].waiters[k]
    ensures id == x && j == k
  {
  }

  /** Answering some of one's waiters and forgetting them. */
  lemma AnswerSome(c: Config, s: State, s': State, id: NodeId)
    requires Answers(c, s) && id in s.nodes && id in s'.nodes && s'.nodes == s.nodes[id := s'.nodes[id]]
    requires s'.tickets == s.tickets && s'.reigns == s.reigns && s'.commits == s.commits
    requires forall k {:trigger StillWaits(s.nodes[id], s'.nodes[id], k)} ::
               k in s'.nodes[id].waiters ==> StillWaits(s.nodes[id], s'.nodes[id], k)
    requires forall t :: t in s.outcomes ==> t in s'.outcomes && s'.outcomes[t] == s.outcomes[t]
    requires forall t :: t in s'.outcomes && t !in s.outcomes ==>
               && (exists k :: k in s.nodes[id].waiters && s.nodes[id].waiters[k] == t)
               && (forall k :: k in s'.nodes[id].waiters ==> s'.nodes[id].waiters[k] != t)
               && t in s.tickets
               && (s'.outcomes[t].Done? ==> DoneOk(c, s.reigns, s.commits, s.tickets[t], s'.outcomes[t].result))
    ensures Answers(c, s')
  {
    forall x, k ensures WaiterOk(s', x, k) {
      assert WaiterOk(s, x, k);
      assert x == id && k in s'.nodes[id].waiters ==> StillWaits(s.nodes[id], s'.nodes[id], k);
      if x in s'.nodes && k in s'.nodes[x].waiters && s'.nodes[x].waiters[k] in s'.outcomes {
        var t := s'.nodes[x].waiters[k];
        var j :| j in s.nodes[id].waiters && s.nodes[id].waiters[j] == t;
        OneWaiter(s, id, j, x, k);
      }
    }
    forall t | t in s'.tickets ensures TicketOk(s'.reigns, s'.tickets[t]) { assert TicketOk(s.reigns, s.tickets[t]); }
    forall t ensures OutcomeOk(c, s', t) { assert OutcomeOk(c, s, t); }
    forall t, u | SameEntry(s', t, u) ensures t == u { assert SameEntry(s, t, u); }
  }

  // ---- each step ----

  lemma NoWaiters(c: Config, s: State, id: NodeId)
    requires Answers(c, s) && id in s.nodes && s.nodes[id].role != Leader
    ensures s.nodes[id].waiters == map[]
  {
    forall k ensures k !in s.nodes[id].waiters { assert WaiterOk(s, id, k); }
  }

  /** A waiter that is kept by a step which changes neither role nor term. */
  lemma WaitersAbove(c: Config, s: State, id: NodeId, m: NodeState)
    requires Answers(c, s) && id in s.nodes
    requires m.role == s.nodes[id].role && m.term == s.nodes[id].term && m.applied == s.nodes[id].applied
    requires forall k :: k in m.waiters ==> k in s.nodes[id].waiters && m.waiters[k] == s.nodes[id].waiters[k]
    ensures forall k {:trigger StillWaits(s.nodes[id], m, k)} :: k in m.waiters ==> StillWaits(s.nodes[id], m, k)
  {
    forall k | k in m.waiters ensures StillWaits(s.nodes[id], m, k) { assert WaiterOk(s, id, k); }
  }

  lemma AnswersDeposed(c: Config, s: State, s': State, id: NodeId, m: NodeState)
    requires Answers(c, s) && id in s.nodes && s'.nodes == s.nodes[id := m]
    requires m.waiters == if s.nodes[id].role == Leader then map[] else s.nodes[id].waiters
    requires s'.tickets == s.tickets && s'.reigns == s.reigns && s'.commits == s.commits
    requires s'.outcomes == s.outcomes + map t | t in FailedBy(s.nodes[id]) :: NotLeader
    ensures Answers(c, s')
  {
    var n := s.nodes[id];
    if n.role != Leader { NoWaiters(c, s, id); }
    forall t | t in FailedBy(n)
      ensures t in s.tickets && t !in s.outcomes && exists k :: k in n.waiters && n.waiters[k] == t
    {
      var k :| k in n.waiters && n.waiters[k] == t;
      assert WaiterOk(s, id, k);
    }
    AnswerSome(c, s, s', id);
  }

  lemma AnswersApplied(c: Config, s: State, id: NodeId)
    requires Inv(c, s) && Answers(c, s) && id in c.servers && CanApply(c, s.nodes[id]) && AppOk(c, s.nodes[id])
    ensures Answers(c, DoApply(c, s, id))
  {
    var s', n := DoApply(c, s, id), s.nodes[id];
    var k, m := n.applied + 1, ApplyNext(c, n);
    assert NodeOk(c, s, id);
    forall j | j in m.waiters ensures StillWaits(n, m, j) { assert WaiterOk(s, id, j); }
    if k in n.waiters {
      var t := n.waiters[k];
      assert WaiterOk(s, id, k);
      assert TicketOk(s.reigns, s.tickets[t]);
      OwnResult(c, s, id);
      forall j | j in m.waiters ensures m.waiters[j] != t { assert WaiterOk(s, id, j); }
    }
    AnswerSome(c, s, s', id);
  }

  /** A leader applying an entry of its own log reports what that entry produced. */
  lemma OwnResult(c: Config, s: State, id: NodeId)
    requires id in s.nodes && id in s.past && CanApply(c, s.nodes[id]) && AppOk(c, s.nodes[id])
    requires NodeOk(c, s, id) && s.nodes[id].role == Leader
    ensures var n, k := s.nodes[id], s.nodes[id].applied + 1;
            && Justified(s.reigns, s.commits, s.reigns[n.term].log, k, n.term)
            && ResultAt(c, s.reigns[n.term].log, k) == Some(NextResult(c, n))
  {
    var n, k := s.nodes[id], s.nodes[id].applied + 1;
    if n.commit != 0 {
      var t :| && t in s.commits && t in s.reigns && t <= n.term && n.commit <= s.commits[t].index
               && Has(n.log, s.reigns[t].log, n.commit);
      HasAt(n.log, s.reigns[t].log, n.commit, k);
    }
  }

  lemma AnswersProposed(c: Config, s: State, id: NodeId, command: Command, ticket: nat)
    requires Inv(c, s) && Answers(c, s) && id in c.servers && s.nodes[id].role == Leader && ticket !in s.tickets
    requires Grows(c, s, DoPropose(c, s, id, command, ticket), id)
    ensures Answers(c, DoPropose(c, s, id, command, ticket))
  {
    var s', n := DoPropose(c, s, id, command, ticket), s.nodes[id];
    assert NodeOk(c, s, id);
    assert ticket !in s.outcomes by { assert OutcomeOk(c, s, ticket); }
    forall x, k ensures WaiterOk(s', x, k) { assert WaiterOk(s, x, k); }
    forall t | t in s'.tickets ensures TicketOk(s'.reigns, s'.tickets[t]) {
      if t != ticket {
        assert TicketOk(s.reigns, s.tickets[t]);
        TicketOkGrows(s.reigns, s'.reigns, id, s.tickets[t]);
      }
    }
    forall t ensures OutcomeOk(c, s', t) {
      assert OutcomeOk(c, s, t);
      if t in s.outcomes && s.outcomes[t].Done? { DoneOkGrows(c, s, s', id, s.tickets[t], s.outcomes[t].result); }
    }
    forall t, u | SameEntry(s', t, u) ensures t == u { FreshEntry(c, s, id, s', ticket, t, u); }
  }

  /** A new proposal has an entry to itself, past the end of its leader's log. */
  lemma FreshEntry(c: Config, s: State, id: NodeId, s': State, ticket: nat, t: nat, u: nat)
    requires Answers(c, s) && id in s.nodes && s.nodes[id].term in s.reigns
    requires s.reigns[s.nodes[id].term].log == s.nodes[id].log
    requires ticket !in s.tickets && ticket in s'.tickets && s'.tickets == s.tickets[ticket := s'.tickets[ticket]]
    requires s'.tickets[ticket].term == s.nodes[id].term && s'.tickets[ticket].index == |s.nodes[id].log|
    requires SameEntry(s', t, u)
    ensures t == u
  {
    assert t != ticket ==> TicketOk(s.reigns, s.tickets[t]);
    assert u != ticket ==> TicketOk(s.reigns, s.tickets[u]);
    assert t != ticket && u != ticket ==> SameEntry(s, t, u);
  }

  /** Steps of an actor that answers nobody. */
  lemma QuietAnswers(c: Config, s: State, a: Action)
    requires ConfigOk(c) && Inv(c, s) && Answers(c, s) && Enabled(c, s, a)
    requires a.Timeout? || a.AnswerVote? || a.CountVote? || a.LoseVote? || a.LearnCommit? || a.RecordAppend?
             || a.AdvanceCommit? || a.Send? || a.Deregister? || a.Crash?
    ensures Answers(c, Do(c, s, a))
  {
    var s', n := Do(c, s, a), s.nodes[a.id];
    StepKeeps(c, s, a);
    if n.role != Leader { NoWaiters(c, s, a.id); }
    QuietWaiters(c, s, a);
    if s'.nodes[a.id].waiters != map[] { WaitersAbove(c, s, a.id, s'.nodes[a.id]); }
    KeepAnswers(c, s, s', a.id);
  }

  lemma QuietWaiters(c: Config, s: State, a: Action)
    requires Shaped(c, s) && Enabled(c, s, a)
    requires a.Timeout? || a.AnswerVote? || a.CountVote? || a.LoseVote? || a.LearnCommit? || a.RecordAppend?
             || a.AdvanceCommit? || a.Send? || a.Deregister? || a.Crash?
    requires s.nodes[a.id].role != Leader ==> s.nodes[a.id].waiters == map[]
    ensures var s', n, m := Do(c, s, a), s.nodes[a.id], Do(c, s, a).nodes[a.id];
            && s'.tickets == s.tickets && s'.outcomes == s.outcomes
            && (forall k :: k in m.waiters ==> k in n.waiters && m.waiters[k] == n.waiters[k])
            && (m.waiters != map[] ==> m.role == n.role && m.term == n.term && m.applied == n.applied)
  {
    if IsVoting(a) { QuietVotes(c, s, a); }
  }

  lemma QuietVotes(c: Config, s: State, a: Action)
    requires Shaped(c, s) && Enabled(c, s, a) && (a.Timeout? || a.AnswerVote? || a.CountVote? || a.LoseVote?)
    requires s.nodes[a.id].role != Leader ==> s.nodes[a.id].waiters == map[]
    ensures var s', n, m := Do(c, s, a), s.nodes[a.id], Do(c, s, a).nodes[a.id];
            && s'.tickets == s.tickets && s'.outcomes == s.outcomes && m.waiters == n.waiters
            && (m.waiters != map[] ==> m.role == n.role && m.term == n.term && m.applied == n.applied)
  {
  }

  lemma StepAnswers(c: Config, s: State, a: Action)
    requires ConfigOk(c) && Inv(c, s) && Answers(c, s) && Enabled(c, s, a) && AppOk(c, s.nodes[a.id])
    ensures Answers(c, Do(c, s, a))
  {
    match a
    case ObserveTerm(id, m) => AnswersDeposed(c, s, Do(c, s, a), id, StepDown(s.nodes[id], TermOf(m), ""));
    case AnswerAppend(id, m) =>
      StepKeeps(c, s, a);
      AppendAnswers(c, s, id, m);
    case ApplyEntry(id) => AnswersApplied(c, s, id);
    case ProposeAt(id, command, ticket) =>
      StepKeeps(c, s, a);
      AnswersProposed(c, s, id, command, ticket);
    case _ => QuietAnswers(c, s, a);
  }

  lemma AppendAnswers(c: Config, s: State, id: NodeId, msg: Message)
    requires Answers(c, s) && Shaped(c, s) && id in c.servers && msg.AppendCall? && msg.areq.term <= s.nodes[id].term
    requires Grows(c, s, DoAnswerAppend(c, s, id, msg), id)
    ensures Answers(c, DoAnswerAppend(c, s, id, msg))
  {
    var s', req := DoAnswerAppend(c, s, id, msg), msg.areq;
    if req.version != PROTOCOL_VERSION || req.clusterId != c.clusterId || req.term < s.nodes[id].term {
      WaitersAbove(c, s, id, s.nodes[id]);
      KeepAnswers(c, s, s', id);
    } else {
      AnswersDeposed(c, s, s', id, AcceptAppend(s.nodes[id], req).0);
    }
  }

  // ---- over whole runs ----

  lemma InitAnswers(c: Config)
    ensures Answers(c, InitState(c))
  {
  }

  lemma {:induction false} RunAnswers(c: Config, run: seq<State>, i: nat)
    requires IsRun(c, run) && i < |run|
    ensures Answers(c, run[i])
  {
    if i == 0 {
      InitAnswers(c);
    } else {
      RunAnswers(c, run, i - 1);
      var a := RunAction(c, run, i - 1);
      RunApps(c, run, i - 1, a.id);
      StepAnswers(c, run[i - 1], a);
    }
  }

  /** Nothing told to a proposer is ever taken back, and tickets do not change. */
  ghost predicate Remembers(s: State, s': State) {
    && (forall t :: t in s.tickets ==> t in s'.tickets && s'.tickets[t] == s.tickets[t])
    && (forall t :: t in s.outcomes ==> t in s'.outcomes && s'.outcomes[t] == s.outcomes[t])
  }

  lemma Unanswered(c: Config, s: State, id: NodeId, t: nat)
    requires Answers(c, s) && id in s.nodes && t in s.nodes[id].waiters.Values
    ensures t in s.tickets && t !in s.outcomes
  {
    var k :| k in s.nodes[id].waiters && s.nodes[id].waiters[k] == t;
    assert WaiterOk(s, id, k);
  }

  lemma StepRemembers(c: Config, s: State, a: Action)
    requires Shaped(c, s) && Answers(c, s) && Enabled(c, s, a)
    ensures Remembers(s, Do(c, s, a))
  {
    var n := s.nodes[a.id];
    forall t | t in n.waiters.Values ensures t !in s.outcomes { Unanswered(c, s, a.id, t); }
    if a.ApplyEntry? {
      assert n.applied + 1 in n.waiters ==> n.waiters[n.applied + 1] in n.waiters.Values;
    } else {
      StepOutcomes(c, s, a);
    }
  }

  /** Apart from applying, a step tells proposers only that this node was deposed. */
  lemma StepOutcomes(c: Config, s: State, a: Action)
    requires Shaped(c, s) && Enabled(c, s, a) && !a.ApplyEntry?
    ensures forall t :: t in s.tickets && (a.ProposeAt? ==> t != a.ticket) ==>
              t in Do(c, s, a).tickets && Do(c, s, a).tickets[t] == s.tickets[t]
    ensures forall t :: t in s.outcomes && t !in s.nodes[a.id].waiters.Values ==>
              t in Do(c, s, a).outcomes && Do(c, s, a).outcomes[t] == s.outcomes[t]
  {
    match a
    case AnswerAppend(id, m) =>
    case CountVote(id, m) =>
    case AnswerVote(id, m) =>
    case _ =>
  }

  lemma {:induction false} RunRemembers(c: Config, run: seq<State>, i: nat, j: nat)
    requires IsRun(c, run) && i <= j < |run|
    ensures Remembers(run[i], run[j])
  {
    if i == j {
    } else {
      RunRemembers(c, run, i, j - 1);
      RunAnswers(c, run, j - 1);
      var a := RunAction(c, run, j - 1);
      StepRemembers(c, run[j - 1], a);
    }
  }

  // ---- nobody is forgotten ----

  /** The waiter waits on, or has been told something. */
  ghost predicate Heard(s: State, id: NodeId, k: nat, t: nat) {
    t in s.outcomes || (id in s.nodes && k in s.nodes[id].waiters && s.nodes[id].waiters[k] == t)
  }

  /** The member crashes, or the caller itself stops waiting. */
  predicate Leaves(a: Action, id: NodeId, k: nat) {
    a.id == id && (a.Crash? || (a.Deregister? && a.index == k))
  }

  lemma DeposedHears(s: State, id: NodeId, n: NodeState, k: nat)
    requires id in s.nodes && k in s.nodes[id].waiters && s.nodes[id].role == Leader
    ensures s.nodes[id].waiters[k] in WithDeposed(s, id, n).outcomes
  {
    assert s.nodes[id].waiters[k] in s.nodes[id].waiters.Values;
  }

  lemma WaitsInLog(c: Config, s: State, id: NodeId, k: nat)
    requires Inv(c, s) && Answers(c, s) && id in s.nodes && k in s.nodes[id].waiters
    ensures k < |s.nodes[id].log|
  {
    assert NodeOk(c, s, id) && WaiterOk(s, id, k);
    assert TicketOk(s.reigns, s.tickets[s.nodes[id].waiters[k]]);
  }

  lemma CopyingHears(c: Config, s: State, a: Action, k: nat)
    requires Shaped(c, s) && Enabled(c, s, a) && IsCopying(a) && s.nodes[a.id].role == Leader
    requires k in s.nodes[a.id].waiters
    ensures Heard(Do(c, s, a), a.id, k, s.nodes[a.id].waiters[k])
  {
    if a.AnswerAppend? { DeposedHears(s, a.id, AcceptAppend(s.nodes[a.id], a.msg.areq).0, k); }
  }

  lemma VotingHears(c: Config, s: State, a: Action, k: nat)
    requires Shaped(c, s) && Enabled(c, s, a) && IsVoting(a) && s.nodes[a.id].role == Leader
    requires k in s.nodes[a.id].waiters
    ensures Heard(Do(c, s, a), a.id, k, s.nodes[a.id].waiters[k])
  {
    if a.ObserveTerm? { DeposedHears(s, a.id, StepDown(s.nodes[a.id], TermOf(a.msg), ""), k); }
  }

  /** Every other step leaves a waiter waiting, or tells it something. */
  lemma StepHears(c: Config, s: State, a: Action, id: NodeId, k: nat)
    requires ConfigOk(c) && Inv(c, s) && Answers(c, s) && Enabled(c, s, a) && !Leaves(a, id, k)
    requires id in s.nodes && k in s.nodes[id].waiters
    ensures Heard(Do(c, s, a), id, k, s.nodes[id].waiters[k])
  {
    assert WaiterOk(s, id, k);
    if a.id != id {
      BystanderStays(c, s, a, id);
    } else if IsVoting(a) {
      VotingHears(c, s, a, k);
    } else if IsCopying(a) {
      CopyingHears(c, s, a, k);
    } else {
      WaitsInLog(c, s, id, k);
    }
  }

  /** A proposer is never forgotten: while its member stays up and it does not stop waiting
      itself, it waits on or is told something. */
  lemma {:induction false} NobodyForgotten(c: Config, run: seq<State>, i: nat, j: nat, id: NodeId, k: nat)
    requires IsRun(c, run) && i <= j < |run| && id in run[i].nodes && k in run[i].nodes[id].waiters
    requires forall x, a {:trigger Enabled(c, run[x], a)} ::
               i <= x < j && Shaped(c, run[x]) && Enabled(c, run[x], a) && run[x + 1] == Do(c, run[x], a) ==>
                 !Leaves(a, id, k)
    ensures Heard(run[j], id, k, run[i].nodes[id].waiters[k])
  {
    if i == j {
    } else {
      NobodyForgotten(c, run, i, j - 1, id, k);
      var a := RunAction(c, run, j - 1);
      RunAnswers(c, run, j - 1);
      if run[i].nodes[id].waiters[k] in run[j - 1].outcomes {
        AnsweredOnce(c, run, j - 1, j, run[i].nodes[id].waiters[k]);
      } else {
        StepHears(c, run[j - 1], a, id, k);
      }
    }
  }

  /** Every waiter belongs to a current leader and waits, above last_applied, on an
      entry of the current term that carries its proposer's command. */
  lemma WaitersAreOwn(c: Config, run: seq<State>, i: nat, id: NodeId, k: nat)
    requires IsRun(c, run) && i < |run| && id in c.servers && id in run[i].nodes && k in run[i].nodes[id].waiters
    ensures var s, n := run[i], run[i].nodes[id];
            && n.role == Leader && n.applied < k < |n.log|
            && n.waiters[k] in s.tickets && n.waiters[k] !in s.outcomes
            && s.tickets[n.waiters[k]].node == id
            && n.log[k] == LogEntry(k, n.term, Carries(s.tickets[n.waiters[k]].command))
  {
    var s, n := run[i], run[i].nodes[id];
    RunAnswers(c, run, i);
    RunInv(c, run, i);
    assert NodeOk(c, s, id);
    assert WaiterOk(s, id, k);
    assert TicketOk(s.reigns, s.tickets[n.waiters[k]]);
  }

  /** A proposer hears at most one thing: an answer never changes afterwards. */
  lemma AnsweredOnce(c: Config, run: seq<State>, i: nat, j: nat, t: nat)
    requires IsRun(c, run) && i <= j < |run| && t in run[i].outcomes
    ensures t in run[j].outcomes && run[j].outcomes[t] == run[i].outcomes[t]
  {
    RunRemembers(c, run, i, j);
  }

  /** A result told to a proposer is what its own command produced: every member
      whose commit index ever reaches the entry holds that very command there, and
      folding its log yields that very result. */
  lemma ResultIsOwn(c: Config, run: seq<State>, i: nat, j: nat, t: nat, b: NodeId)
    requires IsRun(c, run) && i < |run| && j < |run| && b in c.servers && b in run[j].nodes
    requires t in run[i].outcomes && run[i].outcomes[t].Done?
    requires t in run[i].tickets ==> run[i].tickets[t].index <= run[j].nodes[b].commit
    ensures t in run[i].tickets
    ensures var k, n := run[i].tickets[t], run[j].nodes[b];
            && 1 <= k.index < |n.log|
            && n.log[k.index] == LogEntry(k.index, k.term, Carries(k.command))
            && ResultAt(c, n.log, k.index) == Some(run[i].outcomes[t].result)
  {
    var last, n := if i <= j then j else i, run[j].nodes[b];
    RunAnswers(c, run, i);
    assert OutcomeOk(c, run[i], t);
    RunAnswers(c, run, last);
    RunRemembers(c, run, i, last);
    assert OutcomeOk(c, run[last], t);
    CommittedJustified(c, run, j, b);
    JustifiedPersists(c, run, j, last, n.log, n.commit, n.term);
    DoneAgrees(c, run[last], run[last].tickets[t], run[last].outcomes[t].result, n.log, n.commit, n.term) by {
      RunInv(c, run, last);
    }
  }

  lemma DoneAgrees(c: Config, s: State, t: Ticket, r: Result, log: seq<LogEntry>, commit: nat, term: nat)
    requires ConfigOk(c) && Inv(c, s) && DoneOk(c, s.reigns, s.commits, t, r)
    requires WellFormed(log) && Justified(s.reigns, s.commits, log, commit, term) && t.index <= commit
    ensures t.index < |log| && log[t.index] == LogEntry(t.index, t.term, Carries(t.command))
    ensures 1 <= t.index && ResultAt(c, log, t.index) == Some(r)
  {
    var ref := s.reigns[t.term].log;
    ReignFacts(c, s, t.term);
    JustifiedAgree(c, s, ref, t.index, t.term, log, commit, term);
    HasAt(ref, log, t.index, t.index);
    ResultPrefix(c, ref, log, t.index, t.index);
  }
}
