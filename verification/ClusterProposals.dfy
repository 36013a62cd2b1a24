/**
  Nothing is invented: in every run, a command on any member's log was proposed, to the
  leader of its entry's term, and sits at the index that its proposer was given.
 */
module ClusterProposals {
  import opened Models
  import opened RaftNode
  import opened Cluster
  import opened ClusterInvariant
  import opened ClusterSteps
  import opened ClusterSafety

  type Tickets = map<nat, Ticket>

  ghost predicate IsTicketOf(T: Tickets, e: LogEntry, leader: NodeId, t: nat) {
    e.payload.Carries? && t in T && T[t] == Ticket(leader, e.term, e.index, e.payload.command)
  }

  /** If the entry carries a command, it was proposed to its term's leader. */
  ghost predicate WasProposed(R: Reigns, T: Tickets, e: LogEntry) {
    e.payload.Carries? ==> e.term in R && exists t :: IsTicketOf(T, e, R[e.term].leader, t)
  }

  ghost predicate AllProposed(R: Reigns, T: Tickets, log: seq<LogEntry>) {
    forall k {:trigger WasProposed(R, T, log[k])} :: 0 <= k < |log| ==> WasProposed(R, T, log[k])
  }

  ghost predicate ReignsProposed(s: State) {
    forall t {:trigger AllProposed(s.reigns, s.tickets, s.reigns[t].log)} ::
      t in s.reigns ==> AllProposed(s.reigns, s.tickets, s.reigns[t].log)
  }

  // ---- growth ----

  lemma WasProposedGrows(R: Reigns, S: Reigns, actor: NodeId, T: Tickets, U: Tickets, e: LogEntry)
    requires ReignsGrow(R, S, actor) && WasProposed(R, T, e) && forall t :: t in T ==> t in U && U[t] == T[t]
    ensures WasProposed(S, U, e)
  {
    if e.payload.Carries? {
      assert ReignGrows(R, S, e.term, actor);
      var t :| IsTicketOf(T, e, R[e.term].leader, t);
      assert IsTicketOf(U, e, S[e.term].leader, t);
    }
  }

  lemma AllProposedGrows(R: Reigns, S: Reigns, actor: NodeId, T: Tickets, U: Tickets, log: seq<LogEntry>)
    requires ReignsGrow(R, S, actor) && AllProposed(R, T, log) && forall t :: t in T ==> t in U && U[t] == T[t]
    ensures AllProposed(S, U, log)
  {
    forall k | 0 <= k < |log| ensures WasProposed(S, U, log[k]) {
      assert WasProposed(R, T, log[k]);
      WasProposedGrows(R, S, actor, T, U, log[k]);
    }
  }

  lemma OneMore(R: Reigns, T: Tickets, log: seq<LogEntry>, e: LogEntry)
    requires AllProposed(R, T, log) && WasProposed(R, T, e)
    ensures AllProposed(R, T, log + [e])
  {
    var more := log + [e];
    forall k | 0 <= k < |more| ensures WasProposed(R, T, more[k]) {
      if k < |log| { assert more[k] == log[k] && WasProposed(R, T, log[k]); }
    }
  }

  /** What sits on the leaders' logs was proposed, so whatever is grounded in them was. */
  lemma GroundedProposed(s: State, log: seq<LogEntry>)
    requires ReignsProposed(s) && WellFormed(log) && Grounded(s.reigns, log)
    ensures AllProposed(s.reigns, s.tickets, log)
  {
    forall k | 0 <= k < |log| ensures WasProposed(s.reigns, s.tickets, log[k]) {
      if k > 0 {
        assert EntryGrounded(s.reigns, log, k);
        var t := log[k].term;
        var ref := s.reigns[t].log;
        HasAt(log, ref, k, k);
        assert AllProposed(s.reigns, s.tickets, ref);
        assert WasProposed(s.reigns, s.tickets, ref[k]);
      }
    }
  }

  // ---- steps ----

  /** Leaders' logs change only when one is elected or takes a proposal. */
  lemma QuietStep(c: Config, s: State, a: Action)
    requires Shaped(c, s) && Enabled(c, s, a) && !a.CountVote? && !a.ProposeAt?
    ensures Do(c, s, a).reigns == s.reigns && Do(c, s, a).tickets == s.tickets
  {
    match a
    case AnswerAppend(id, m) =>
    case AnswerVote(id, m) =>
    case _ =>
  }

  lemma ElectionStep(c: Config, s: State, id: NodeId, m: Message)
    requires ConfigOk(c) && Inv(c, s) && Enabled(c, s, CountVote(id, m)) && ReignsProposed(s)
    ensures ReignsProposed(Do(c, s, CountVote(id, m)))
  {
    var s', n := DoCountVote(c, s, id, m), s.nodes[id];
    StepKeeps(c, s, CountVote(id, m));
    forall t | t in s'.reigns ensures AllProposed(s'.reigns, s'.tickets, s'.reigns[t].log) {
      if s'.reigns != s.reigns && t == n.term {
        NodeLogProposed(c, s, id);
        AllProposedGrows(s.reigns, s'.reigns, id, s.tickets, s'.tickets, n.log);
        OneMore(s'.reigns, s'.tickets, n.log, LogEntry(LastIndex(n.log) + 1, n.term, Noop));
      } else {
        assert AllProposed(s.reigns, s.tickets, s.reigns[t].log);
        AllProposedGrows(s.reigns, s'.reigns, id, s.tickets, s'.tickets, s.reigns[t].log);
      }
    }
  }

  lemma NodeLogProposed(c: Config, s: State, id: NodeId)
    requires Inv(c, s) && id in c.servers && ReignsProposed(s)
    ensures AllProposed(s.reigns, s.tickets, s.nodes[id].log)
  {
    assert NodeOk(c, s, id);
    GroundedProposed(s, s.nodes[id].log);
  }

  lemma ProposalStep(c: Config, s: State, id: NodeId, command: Command, ticket: nat)
    requires ConfigOk(c) && Inv(c, s) && Enabled(c, s, ProposeAt(id, command, ticket)) && ReignsProposed(s)
    ensures ReignsProposed(Do(c, s, ProposeAt(id, command, ticket)))
  {
    var s', n := DoPropose(c, s, id, command, ticket), s.nodes[id];
    StepKeeps(c, s, ProposeAt(id, command, ticket));
    assert NodeOk(c, s, id);
    Appended(s, s', id, n.term, LogEntry(|n.log|, n.term, Carries(command)), ticket);
  }

  lemma Appended(s: State, s': State, id: NodeId, term: nat, e: LogEntry, ticket: nat)
    requires ReignsProposed(s) && ReignsGrow(s.reigns, s'.reigns, id) && term in s.reigns && e.term == term
    requires s'.reigns == s.reigns[term := s.reigns[term].(log := s.reigns[term].log + [e])]
    requires forall t :: t in s.tickets ==> t in s'.tickets && s'.tickets[t] == s.tickets[t]
    requires IsTicketOf(s'.tickets, e, s.reigns[term].leader, ticket)
    ensures ReignsProposed(s')
  {
    assert WasProposed(s'.reigns, s'.tickets, e);
    forall t | t in s'.reigns ensures AllProposed(s'.reigns, s'.tickets, s'.reigns[t].log) {
      assert AllProposed(s.reigns, s.tickets, s.reigns[t].log);
      AllProposedGrows(s.reigns, s'.reigns, id, s.tickets, s'.tickets, s.reigns[t].log);
      if t == term { OneMore(s'.reigns, s'.tickets, s.reigns[t].log, e); }
    }
  }

  lemma {:induction false} RunProposed(c: Config, run: seq<State>, i: nat)
    requires IsRun(c, run) && i < |run|
    ensures ReignsProposed(run[i])
  {
    if i == 0 {
    } else {
      RunProposed(c, run, i - 1);
      var a := RunAction(c, run, i - 1);
      StepProposed(c, run[i - 1], a);
    }
  }

  lemma StepProposed(c: Config, s: State, a: Action)
    requires ConfigOk(c) && Inv(c, s) && Enabled(c, s, a) && ReignsProposed(s)
    ensures ReignsProposed(Do(c, s, a))
  {
    match a
    case CountVote(id, m) => ElectionStep(c, s, id, m);
    case ProposeAt(id, command, ticket) => ProposalStep(c, s, id, command, ticket);
    case _ => QuietStep(c, s, a);
  }

  /** Nothing is invented: the command at index k of a member's log was handed to the leader
      of that entry's term, under a ticket for that very index. */
  lemma CommandsWereProposed(c: Config, run: seq<State>, i: nat, id: NodeId, k: nat) returns (t: nat)
    requires IsRun(c, run) && i < |run| && id in c.servers && id in run[i].nodes
    requires k < |run[i].nodes[id].log| && run[i].nodes[id].log[k].payload.Carries?
    ensures var s, e := run[i], run[i].nodes[id].log[k];
            && e.term in s.reigns && t in s.tickets
            && s.tickets[t] == Ticket(s.reigns[e.term].leader, e.term, k, e.payload.command)
  {
    var s, e := run[i], run[i].nodes[id].log[k];
    RunProposed(c, run, i);
    RunInv(c, run, i);
    NodeLogProposed(c, s, id);
    assert WasProposed(s.reigns, s.tickets, e);
    t :| IsTicketOf(s.tickets, e, s.reigns[e.term].leader, t);
    assert NodeOk(c, s, id);
    assert EntryOk(s.nodes[id].log, k);
  }
}
