/**
  The inductive invariant of the cluster, and what follows from it in a single
  state: Log Matching, Leader Completeness and agreement of committed prefixes.

  Three ideas carry it.  Every entry of term t, wherever it is stored, sits on a
  prefix of the log of term t's leader.  A vote remembers the voter's log.  And a
  member that acknowledged a prefix to some leader keeps it until a later leader
  is elected without it; by quorum intersection that never happens to a prefix
  that was committed.
 */
module ClusterInvariant {
  import opened Models
  import opened RaftNode
  import opened Cluster

  type Reigns = map<nat, Reign>
  type Pasts = map<NodeId, Past>
  type Commits = map<nat, Commitment>

  // ---- prefixes ----

  /** `log` and `ref` agree on positions 0 to j. */
  ghost predicate Has(log: seq<LogEntry>, ref: seq<LogEntry>, j: nat) {
    j < |log| && j < |ref| && log[..j + 1] == ref[..j + 1]
  }

  lemma HasAt(log: seq<LogEntry>, ref: seq<LogEntry>, j: nat, i: nat)
    requires Has(log, ref, j) && i <= j
    ensures Has(log, ref, i) && log[i] == ref[i]
  {
    assert log[..i + 1] == log[..j + 1][..i + 1];
    assert ref[..i + 1] == ref[..j + 1][..i + 1];
    assert log[i] == log[..i + 1][i] == ref[..i + 1][i] == ref[i];
  }

  lemma HasTrans(a: seq<LogEntry>, b: seq<LogEntry>, c: seq<LogEntry>, i: nat, j: nat, k: nat)
    requires Has(a, b, i) && Has(b, c, j) && k <= i && k <= j
    ensures Has(a, c, k)
  {
    HasAt(a, b, i, k);
    HasAt(b, c, j, k);
  }

  lemma HasPrefix(log: seq<LogEntry>, ref: seq<LogEntry>, longer: seq<LogEntry>, j: nat)
    requires ref <= longer && j < |ref|
    ensures Has(log, ref, j) <==> Has(log, longer, j)
    ensures Has(ref, log, j) <==> Has(longer, log, j)
  {
    assert ref[..j + 1] == longer[..j + 1];
  }

  // ---- every entry sits on its term's leader log ----

  ghost predicate EntryGrounded(R: Reigns, log: seq<LogEntry>, i: nat)
    requires i < |log|
  {
    log[i].term in R && Has(log, R[log[i].term].log, i)
  }

  ghost predicate Grounded(R: Reigns, log: seq<LogEntry>) {
    forall i {:trigger EntryGrounded(R, log, i)} :: 1 <= i < |log| ==> EntryGrounded(R, log, i)
  }

  ghost predicate LogOk(R: Reigns, log: seq<LogEntry>, term: nat) {
    WellFormed(log) && Grounded(R, log) && LastTerm(log) <= term
  }

  /** Log Matching (Raft paper, section 5.3). */
  lemma LogMatching(R: Reigns, a: seq<LogEntry>, b: seq<LogEntry>, i: nat)
    requires WellFormed(a) && WellFormed(b) && Grounded(R, a) && Grounded(R, b)
    requires i < |a| && i < |b| && a[i].term == b[i].term
    ensures Has(a, b, i)
  {
    if i == 0 {
      assert a[..1] == [SENTINEL] == b[..1];
    } else {
      assert EntryGrounded(R, a, i) && EntryGrounded(R, b, i);
    }
  }

  // ---- votes ----

  ghost predicate BallotOk(c: Config, P: Pasts, R: Reigns, t: nat, b: Ballot) {
    && b.candidate in c.servers && b.candidate in P
    && t in P[b.candidate].runs
    && LogOk(R, b.log, t)
    && UpToDate(LastTerm(P[b.candidate].runs[t]), LastIndex(P[b.candidate].runs[t]), b.log)
  }

  ghost predicate RunOk(P: Pasts, R: Reigns, id: NodeId, t: nat)
    requires id in P && t in P[id].runs
  {
    && 1 <= t
    && LogOk(R, P[id].runs[t], t - 1)
    && t in P[id].ballots && P[id].ballots[t].candidate == id
  }

  ghost predicate VotesOk(c: Config, P: Pasts, R: Reigns, id: NodeId, term: nat, vote: NodeId)
    requires id in P
  {
    var past := P[id];
    && (vote == "" ==> term !in past.ballots)
    && (vote != "" ==> term in past.ballots && past.ballots[term].candidate == vote)
    && (forall t {:trigger BallotOk(c, P, R, t, past.ballots[t])} ::
          t in past.ballots ==> t <= term && BallotOk(c, P, R, t, past.ballots[t]))
    && (forall t {:trigger RunOk(P, R, id, t)} :: t in past.runs ==> t <= term && RunOk(P, R, id, t))
  }

  // ---- acknowledged prefixes are kept ----

  /** Some leader between t and hi started without the first j entries of t's leader. */
  ghost predicate Diverged(R: Reigns, t: nat, j: nat, hi: nat)
    requires t in R
  {
    exists u :: t < u < hi && u in R && !Has(R[u].base, R[t].log, j)
  }

  ghost predicate Kept(R: Reigns, log: seq<LogEntry>, t: nat, j: nat, hi: nat) {
    t in R ==> Has(log, R[t].log, j) || Diverged(R, t, j, hi)
  }

  /** The member's vote in term t was not cast after t's leader was elected. */
  ghost predicate Relevant(R: Reigns, id: NodeId, t: nat) {
    t in R ==> id in R[t].voters
  }

  ghost predicate AcksOk(R: Reigns, past: Past, id: NodeId, log: seq<LogEntry>, term: nat) {
    && (forall t :: t in past.acks ==> 1 <= t <= term && t in R && past.acks[t] < |R[t].log|)
    && (forall t, j {:trigger Kept(R, log, t, j, term + 1)} ::
          t in past.acks && 1 <= j <= past.acks[t] ==> Kept(R, log, t, j, term + 1))
    && (forall v, t, j {:trigger Kept(R, past.ballots[v].log, t, j, v)} ::
          v in past.ballots && t in past.acks && t < v && 1 <= j <= past.acks[t] && Relevant(R, id, v)
          ==> Kept(R, past.ballots[v].log, t, j, v))
  }

  lemma AckKept(R: Reigns, past: Past, id: NodeId, log: seq<LogEntry>, term: nat, t: nat, j: nat)
    requires AcksOk(R, past, id, log, term) && t in past.acks && 1 <= j <= past.acks[t]
    ensures Kept(R, log, t, j, term + 1)
  {
  }

  // ---- roles ----

  ghost predicate Acked(P: Pasts, p: NodeId, t: nat, index: nat) {
    p in P && t in P[p].acks && index <= P[p].acks[t]
  }

  ghost predicate ProgressOk(P: Pasts, n: NodeState, p: NodeId) {
    && p in n.matches && (n.matches[p] == 0 || Acked(P, p, n.term, n.matches[p]))
    && p in n.nexts && 1 <= n.nexts[p] <= |n.log|
  }

  ghost predicate LeaderOk(c: Config, P: Pasts, R: Reigns, id: NodeId, n: NodeState)
    requires id in P
  {
    n.role == Leader ==>
      && n.term in R && R[n.term].leader == id && R[n.term].log == n.log
      && n.term in P[id].acks && P[id].acks[n.term] == |n.log| - 1
      && (forall p {:trigger ProgressOk(P, n, p)} :: p in Peers(c, id) ==> ProgressOk(P, n, p))
  }

  ghost predicate VotedFor(P: Pasts, p: NodeId, t: nat, candidate: NodeId) {
    p in P && t in P[p].ballots && P[p].ballots[t].candidate == candidate
  }

  ghost predicate CandidateOk(c: Config, P: Pasts, R: Reigns, id: NodeId, n: NodeState)
    requires id in P
  {
    n.role == Candidate ==>
      && n.term in P[id].runs && P[id].runs[n.term] == n.log && n.vote == id
      && (n.term in R ==> R[n.term].leader != id)
      && P[id].tally <= c.servers && n.votes == |P[id].tally|
      && (forall p {:trigger VotedFor(P, p, n.term, id)} ::
            p in P[id].tally ==> VotedFor(P, p, n.term, id) && (p == id || (p, n.term) !in P[id].pending))
  }

  // ---- commit ----

  /** Some leader of a term up to `term` committed at least `index`, and agrees with `log` there. */
  ghost predicate Justified(R: Reigns, C: Commits, log: seq<LogEntry>, index: nat, term: nat) {
    index == 0 || exists t :: t in C && t in R && t <= term && index <= C[t].index && Has(log, R[t].log, index)
  }

  ghost predicate CommitOk(R: Reigns, C: Commits, n: NodeState) {
    n.applied <= n.commit < |n.log| && Justified(R, C, n.log, n.commit, n.term)
  }

  // ---- the parts together ----

  ghost predicate NodeOk(c: Config, s: State, id: NodeId)
    requires id in s.nodes && id in s.past
  {
    var n := s.nodes[id];
    && LogOk(s.reigns, n.log, n.term)
    && VotesOk(c, s.past, s.reigns, id, n.term, n.vote)
    && AcksOk(s.reigns, s.past[id], id, n.log, n.term)
    && LeaderOk(c, s.past, s.reigns, id, n)
    && CandidateOk(c, s.past, s.reigns, id, n)
    && CommitOk(s.reigns, s.commits, n)
  }

  ghost predicate ReignOk(c: Config, P: Pasts, R: Reigns, t: nat)
    requires t in R
  {
    var r := R[t];
    && r.leader in P
    && t in P[r.leader].runs && P[r.leader].runs[t] == r.base
    && r.voters <= c.servers && |r.voters| >= c.quorum
    && (forall p {:trigger VotedFor(P, p, t, r.leader)} :: p in r.voters ==> VotedFor(P, p, t, r.leader))
    && WellFormed(r.log)
    && r.base < r.log
    && (forall i :: |r.base| <= i < |r.log| ==> r.log[i].term == t)
  }

  ghost predicate CommitmentOk(c: Config, P: Pasts, R: Reigns, t: nat, k: Commitment) {
    && t in R && 1 <= k.index < |R[t].log| && R[t].log[k.index].term == t
    && k.holders <= c.servers && |k.holders| >= c.quorum
    && (forall p {:trigger Acked(P, p, t, k.index)} :: p in k.holders ==> Acked(P, p, t, k.index))
  }

  ghost predicate AppendCallOk(R: Reigns, C: Commits, req: AppendReq) {
    && req.term in R && req.leader == R[req.term].leader
    && var log := R[req.term].log;
    && req.prevIndex + |req.entries| < |log|
    && req.prevTerm == log[req.prevIndex].term
    && req.entries == log[req.prevIndex + 1..req.prevIndex + 1 + |req.entries|]
    && req.leaderCommit < |log| && Justified(R, C, log, req.leaderCommit, req.term)
  }

  ghost predicate MessageOk(c: Config, s: State, m: Message) {
    match m
    case VoteCall(to, r) =>
      && to in Peers(c, r.candidate)
      && r.candidate in s.past && r.term in s.past[r.candidate].runs
      && var run := s.past[r.candidate].runs[r.term];
      && r.lastIndex == LastIndex(run) && r.lastTerm == LastTerm(run)
    case VoteReturn(to, from, sent, r) =>
      from in Peers(c, to) && (r.granted ==> VotedFor(s.past, from, sent, to))
    case AppendCall(to, r) => AppendCallOk(s.reigns, s.commits, r) && to in Peers(c, r.leader)
    case AppendReturn(to, from, sent, r) =>
      && from in Peers(c, to)
      && sent in s.reigns && s.reigns[sent].leader == to
      && (r.success ==> Acked(s.past, from, sent, r.matchIndex))
      && (!r.success ==> r.conflictIndex < |s.reigns[sent].log|)
  }

  ghost predicate Inv(c: Config, s: State) {
    && Shaped(c, s)
    && (forall id {:trigger NodeOk(c, s, id)} :: id in c.servers ==> NodeOk(c, s, id))
    && (forall t {:trigger ReignOk(c, s.past, s.reigns, t)} :: t in s.reigns ==> ReignOk(c, s.past, s.reigns, t))
    && (forall t {:trigger CommitmentOk(c, s.past, s.reigns, t, s.commits[t])} ::
          t in s.commits ==> CommitmentOk(c, s.past, s.reigns, t, s.commits[t]))
    && (forall m {:trigger MessageOk(c, s, m)} :: m in s.net ==> MessageOk(c, s, m))
  }

  // ---- consequences ----

  lemma SubsetSize<T>(a: set<T>, b: set<T>)
    requires a <= b
    ensures |a| <= |b|
  {
    assert |b| == |a| + |b - a| by { assert b == a + (b - a); }
  }

  /** Two majorities share a member. */
  lemma QuorumsMeet(c: Config, a: set<NodeId>, b: set<NodeId>) returns (p: NodeId)
    requires ConfigOk(c) && a <= c.servers && b <= c.servers
    requires |a| >= c.quorum && |b| >= c.quorum
    ensures p in a && p in b
  {
    if a * b == {} {
      SubsetSize(a + b, c.servers);
    }
    p :| p in a * b;
  }

  lemma ReignFacts(c: Config, s: State, t: nat)
    requires Inv(c, s) && t in s.reigns
    ensures 1 <= t && LogOk(s.reigns, s.reigns[t].base, t - 1)
    ensures LogOk(s.reigns, s.reigns[t].log, t)
  {
    var r := s.reigns[t];
    assert ReignOk(c, s.past, s.reigns, t);
    assert NodeOk(c, s, r.leader);
    assert RunOk(s.past, s.reigns, r.leader, t);
    forall i | 1 <= i < |r.log| ensures EntryGrounded(s.reigns, r.log, i) {
      if i < |r.base| {
        assert EntryGrounded(s.reigns, r.base, i);
        HasPrefix(s.reigns[r.base[i].term].log, r.base, r.log, i);
      }
    }
  }

  /** A prefix that t's leader committed is the start of every later leader's log
      (Raft paper, section 5.4.3: Leader Completeness). */
  lemma {:induction false} LeaderCompleteness(c: Config, s: State, t: nat, u: nat)
    requires ConfigOk(c) && Inv(c, s) && t in s.commits && t < u && u in s.reigns
    ensures t in s.reigns
    ensures Has(s.reigns[u].base, s.reigns[t].log, s.commits[t].index)
    decreases u
  {
    var k := s.commits[t];
    var R := s.reigns;
    assert CommitmentOk(c, s.past, R, t, k);
    assert ReignOk(c, s.past, R, u);
    var p := QuorumsMeet(c, k.holders, R[u].voters);
    assert VotedFor(s.past, p, u, R[u].leader);
    var V := s.past[p].ballots[u].log;
    // No leader between t and u started without the prefix, so the voter still had it.
    assert Has(V, R[t].log, k.index) by {
      assert NodeOk(c, s, p);
      assert Acked(s.past, p, t, k.index) && Relevant(R, p, u);
      assert Kept(R, V, t, k.index, u);
      if Diverged(R, t, k.index, u) {
        var w :| t < w < u && w in R && !Has(R[w].base, R[t].log, k.index);
        LeaderCompleteness(c, s, t, w);
        assert false;
      }
    }
    VoterPrefixPasses(c, s, t, u, p);
  }

  /** Two logs that end in the same term: the longer one contains the shorter. */
  lemma SameLastTerm(R: Reigns, long: seq<LogEntry>, short: seq<LogEntry>)
    requires WellFormed(long) && WellFormed(short) && Grounded(R, long) && Grounded(R, short)
    requires LastTerm(long) == LastTerm(short) >= 1 && |long| >= |short|
    ensures Has(long, short, LastIndex(short))
  {
    var i, w := LastIndex(short), LastTerm(short);
    assert EntryGrounded(R, long, LastIndex(long)) && EntryGrounded(R, short, i);
    HasAt(long, R[w].log, LastIndex(long), i);
  }

  /** A log that ends in term w holds all that w's leader started with. */
  lemma HoldsBase(R: Reigns, log: seq<LogEntry>, w: nat)
    requires WellFormed(log) && Grounded(R, log) && LastTerm(log) == w >= 1
    requires w in R && R[w].base < R[w].log && LogOk(R, R[w].base, w - 1)
    ensures Has(log, R[w].base, LastIndex(R[w].base))
  {
    var i, base := LastIndex(log), R[w].base;
    assert EntryGrounded(R, log, i);
    assert i < |base| ==> TermsRise(base, i, LastIndex(base));
    if i < |base| {
      HasAt(log, R[w].log, i, i);
      assert false;
    }
    HasAt(log, R[w].log, i, LastIndex(base));
    HasPrefix(log, base, R[w].log, LastIndex(base));
  }

  /** The voting restriction hands the voter's committed prefix to the candidate. */
  lemma {:induction false} VoterPrefixPasses(c: Config, s: State, t: nat, u: nat, p: NodeId)
    requires ConfigOk(c) && Inv(c, s) && t in s.commits && t in s.reigns && t < u && u in s.reigns
    requires VotedFor(s.past, p, u, s.reigns[u].leader)
    requires Has(s.past[p].ballots[u].log, s.reigns[t].log, s.commits[t].index)
    ensures Has(s.reigns[u].base, s.reigns[t].log, s.commits[t].index)
    decreases u, 0
  {
    var R, k := s.reigns, s.commits[t].index;
    var V, B := s.past[p].ballots[u].log, R[u].base;
    ReignFacts(c, s, u);
    assert && 1 <= t <= LastTerm(V) <= LastTerm(B) < u && LogOk(R, V, u)
           && (LastTerm(V) == LastTerm(B) ==> |B| >= |V|) by {
      assert CommitmentOk(c, s.past, R, t, s.commits[t]);
      assert ReignOk(c, s.past, R, u) && NodeOk(c, s, p);
      assert BallotOk(c, s.past, R, u, s.past[p].ballots[u]);
      HasAt(V, R[t].log, k, k);
      assert TermsRise(V, k, LastIndex(V)) && EntryOk(V, k);
    }
    var w := LastTerm(B);
    if w == LastTerm(V) {
      SameLastTerm(R, B, V);
      HasTrans(B, V, R[t].log, LastIndex(V), k, k);
    } else {
      assert EntryGrounded(R, B, LastIndex(B));
      LeaderCompleteness(c, s, t, w);
      ReignFacts(c, s, w);
      assert ReignOk(c, s.past, R, w);
      HoldsBase(R, B, w);
      HasTrans(B, R[w].base, R[t].log, LastIndex(R[w].base), k, k);
    }
  }

  /** What is justified by one term is on the log of every leader from that term on. */
  lemma JustifiedReaches(c: Config, s: State, log: seq<LogEntry>, index: nat, term: nat, u: nat)
    requires ConfigOk(c) && Inv(c, s) && WellFormed(log) && Justified(s.reigns, s.commits, log, index, term)
    requires term <= u && u in s.reigns
    ensures Has(log, s.reigns[u].log, index)
  {
    var R := s.reigns;
    ReignFacts(c, s, u);
    if index == 0 {
      assert log[..1] == [SENTINEL] == R[u].log[..1];
    } else {
      var t :| t in s.commits && t in R && t <= term && index <= s.commits[t].index && Has(log, R[t].log, index);
      if t < u {
        LeaderCompleteness(c, s, t, u);
        assert ReignOk(c, s.past, R, u);
        HasPrefix(R[t].log, R[u].base, R[u].log, s.commits[t].index);
        assert Has(R[t].log, R[u].log, s.commits[t].index);
        HasTrans(log, R[t].log, R[u].log, index, s.commits[t].index, index);
      }
    }
  }

  /** Two justified prefixes agree as far as both go (State Machine Safety). */
  lemma JustifiedAgree(c: Config, s: State, a: seq<LogEntry>, i: nat, ta: nat, b: seq<LogEntry>, j: nat, tb: nat)
    requires ConfigOk(c) && Inv(c, s) && WellFormed(a) && WellFormed(b) && i <= j
    requires Justified(s.reigns, s.commits, a, i, ta) && Justified(s.reigns, s.commits, b, j, tb)
    ensures Has(a, b, i)
  {
    var R := s.reigns;
    if i == 0 {
      assert j < |b| || j == 0;
      assert a[..1] == [SENTINEL] == b[..1];
    } else {
      var t :| t in s.commits && t in R && t <= ta && i <= s.commits[t].index && Has(a, R[t].log, i);
      var u :| u in s.commits && u in R && u <= tb && j <= s.commits[u].index && Has(b, R[u].log, j);
      var m := if t < u then u else t;
      JustifiedReaches(c, s, a, i, t, m) by { assert Justified(R, s.commits, a, i, t); }
      JustifiedReaches(c, s, b, j, u, m) by { assert Justified(R, s.commits, b, j, u); }
      assert Has(R[m].log, b, j);
      HasTrans(a, R[m].log, b, i, j, i);
    }
  }

  /** Merging a batch of t's leader log into a follower leaves that leader's prefix. */
  lemma ReconcileFacts(R: Reigns, log: seq<LogEntry>, ref: seq<LogEntry>, prev: nat, entries: seq<LogEntry>)
    requires WellFormed(log) && WellFormed(ref) && Grounded(R, log) && Grounded(R, ref)
    requires prev < |log| && prev + |entries| < |ref| && log[prev].term == ref[prev].term
    requires entries == ref[prev + 1..prev + 1 + |entries|]
    ensures var merged, end := Reconcile(log, prev, entries), prev + |entries|;
            && Has(merged, ref, end)
            && (merged == log || merged == ref[..end + 1])
            && (Has(log, ref, end) ==> merged == log)
  {
    var end, k := prev + |entries|, Present(log, prev, entries, 0);
    assert log[prev + k].term == ref[prev + k].term by {
      if k > 0 { assert Holds(log, prev, entries, k - 1); }
    }
    LogMatching(R, log, ref, prev + k);
    if k < |entries| {
      assert !Holds(log, prev, entries, k);
      assert log[..prev + 1 + k] + entries[k..] == ref[..end + 1];
      if Has(log, ref, end) {
        HasAt(log, ref, end, prev + 1 + k);
        assert false;
      }
    }
  }
}
