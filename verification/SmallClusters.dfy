/**
  No committed entry is ever truncated anywhere, in a cluster of at most four members;
  the program's own clusters have three.

  Take a log that holds a prefix, and a leader elected without it.  In so small a cluster
  at most one member fails to vote for a given leader, and voting for the first leader that
  lacks the prefix after the log's own last term would have been refused.  So at most one
  member has such an old log (`OneOld`).  A request that cut a committed entry would make
  its recipient that member; but the first later leader that has the entry again is that
  member too, and it has long left the recipient's term.
 */
module SmallClusters {
  import opened Models
  import opened RaftNode
  import opened Cluster
  import opened ClusterInvariant
  import opened ClusterReplicate
  import opened ClusterSafety
  import opened ClusterHolders
  import opened ClusterSettled

  /** At most one member fails to vote for a leader. */
  predicate Small(c: Config) { |c.servers| <= 4 }

  lemma OneNonvoter(c: Config, voters: set<NodeId>, a: NodeId, b: NodeId)
    requires ConfigOk(c) && Small(c) && voters <= c.servers && |voters| >= c.quorum
    requires a in c.servers - voters && b in c.servers - voters
    ensures a == b
  {
    if a != b {
      assert |voters + {a} + {b}| == |voters| + 2;
      SubsetSize(voters + {a} + {b}, c.servers);
    }
  }

  // ---- a prefix, and which leaders have it ----

  /** Position k of ref is of an election's term, and lies on that term's leader log. */
  ghost predicate IsPrefix(R: Reigns, ref: seq<LogEntry>, k: nat) {
    1 <= k < |ref| && WellFormed(ref) && Grounded(R, ref)
  }

  ghost predicate Lacks(R: Reigns, v: nat, ref: seq<LogEntry>, k: nat) { v in R && !Has(R[v].base, ref, k) }

  /** A leader of a later term than the entry has it only if it was elected with it. */
  lemma HadFromStart(c: Config, s: State, v: nat, ref: seq<LogEntry>, k: nat)
    requires Inv(c, s) && v in s.reigns && IsPrefix(s.reigns, ref, k) && ref[k].term < v
    ensures Has(s.reigns[v].log, ref, k) <==> Has(s.reigns[v].base, ref, k)
  {
    var r := s.reigns[v];
    assert ReignOk(c, s.past, s.reigns, v);
    if Has(r.log, ref, k) { HasAt(r.log, ref, k, k); }
    if k < |r.base| { HasPrefix(ref, r.base, r.log, k); }
  }

  /** A sound log that holds the prefix ends in the term of a leader that has it. */
  lemma EndsWithOwner(R: Reigns, log: seq<LogEntry>, ref: seq<LogEntry>, k: nat)
    requires IsPrefix(R, ref, k) && WellFormed(log) && Grounded(R, log) && Has(log, ref, k)
    ensures 1 <= ref[k].term <= LastTerm(log) && LastTerm(log) in R && Has(R[LastTerm(log)].log, ref, k)
  {
    var last := LastIndex(log);
    HasAt(log, ref, k, k);
    assert EntryOk(log, k) && TermsRise(log, k, last) && EntryGrounded(R, log, last);
    var owner := R[LastTerm(log)].log;
    HasTrans(owner, log, ref, last, k, k) by { assert Has(owner, log, last); }
  }

  // ---- old logs ----

  /** The member's log now, or at the start of a candidacy; hi is past its term, or the candidacy's. */
  ghost predicate LogAt(s: State, id: NodeId, log: seq<LogEntry>, hi: nat) {
    && id in s.nodes && id in s.past
    && ((hi == s.nodes[id].term + 1 && log == s.nodes[id].log)
        || (hi in s.past[id].runs && log == s.past[id].runs[hi]))
  }

  /** It holds the prefix, but nothing of term v or later. */
  ghost predicate Old(s: State, id: NodeId, log: seq<LogEntry>, hi: nat, v: nat, ref: seq<LogEntry>, k: nat) {
    LogAt(s, id, log, hi) && LastTerm(log) < v <= hi && Has(log, ref, k)
  }

  lemma LogAtOk(c: Config, s: State, id: NodeId, log: seq<LogEntry>, hi: nat)
    requires Inv(c, s) && AllSettled(c, s) && id in c.servers && LogAt(s, id, log, hi)
    ensures WellFormed(log) && Grounded(s.reigns, log) && SettledLog(s.reigns, s.past[id], id, log, hi)
  {
    assert NodeOk(c, s, id);
    assert Settled(s.reigns, s.past[id], id, s.nodes[id].log, s.nodes[id].term);
    if hi in s.past[id].runs && log == s.past[id].runs[hi] { assert RunOk(s.past, s.reigns, id, hi); }
  }

  /** The vote that elected v's leader was cast on a log no more current than the leader's. */
  lemma VoteGranted(c: Config, s: State, v: nat, id: NodeId)
    requires Inv(c, s) && v in s.reigns && id in s.reigns[v].voters
    ensures id in c.servers && v in s.past[id].ballots
    ensures UpToDate(LastTerm(s.reigns[v].base), LastIndex(s.reigns[v].base), s.past[id].ballots[v].log)
  {
    assert ReignOk(c, s.past, s.reigns, v);
    assert VotedFor(s.past, id, v, s.reigns[v].leader);
    assert NodeOk(c, s, id);
    assert BallotOk(c, s.past, s.reigns, v, s.past[id].ballots[v]);
  }

  /** A log at least as current, from an election where no leader in between lacks the prefix, has it. */
  lemma CurrentHas(c: Config, s: State, v: nat, log: seq<LogEntry>, ref: seq<LogEntry>, k: nat)
    requires Inv(c, s) && v in s.reigns && IsPrefix(s.reigns, ref, k)
    requires WellFormed(log) && Grounded(s.reigns, log) && Has(log, ref, k) && LastTerm(log) < v
    requires UpToDate(LastTerm(s.reigns[v].base), LastIndex(s.reigns[v].base), log)
    requires forall w :: LastTerm(log) < w < v ==> !Lacks(s.reigns, w, ref, k)
    ensures Has(s.reigns[v].base, ref, k)
  {
    var R := s.reigns;
    var B, w := R[v].base, LastTerm(R[v].base);
    ReignFacts(c, s, v);
    EndsWithOwner(R, log, ref, k);
    if w == LastTerm(log) {
      SameLastTerm(R, B, log);
      HasTrans(B, log, ref, LastIndex(log), k, k);
    } else {
      assert EntryGrounded(R, B, LastIndex(B));
      assert !Lacks(R, w, ref, k);
      ReignFacts(c, s, w);
      assert ReignOk(c, s.past, R, w);
      HoldsBase(R, B, w);
      HasTrans(B, R[w].base, ref, LastIndex(R[w].base), k, k);
    }
  }

  /** A member with an old log did not vote for the first leader after it that lacks the prefix. */
  lemma NotAVoter(c: Config, s: State, id: NodeId, log: seq<LogEntry>, hi: nat, v: nat, ref: seq<LogEntry>, k: nat)
    requires Inv(c, s) && AllSettled(c, s) && id in c.servers && IsPrefix(s.reigns, ref, k)
    requires Old(s, id, log, hi, v, ref, k) && Lacks(s.reigns, v, ref, k)
    requires forall w :: LastTerm(log) < w < v ==> !Lacks(s.reigns, w, ref, k)
    ensures id !in s.reigns[v].voters
  {
    if id in s.reigns[v].voters {
      LogAtOk(c, s, id, log, hi);
      VoteGranted(c, s, v, id);
      assert s.past[id].ballots[v].log == log;
      CurrentHas(c, s, v, log, ref, k);
    }
  }

  // ---- first leaders ----

  lemma {:induction false} FirstLacking(R: Reigns, lo: nat, hi: nat, ref: seq<LogEntry>, k: nat) returns (v: nat)
    requires lo < hi && Lacks(R, hi, ref, k)
    ensures lo < v <= hi && Lacks(R, v, ref, k) && forall w :: lo < w < v ==> !Lacks(R, w, ref, k)
    decreases hi
  {
    if u :| lo < u < hi && Lacks(R, u, ref, k) {
      v := FirstLacking(R, lo, u, ref, k);
    } else {
      v := hi;
    }
  }

  ghost predicate Regains(R: Reigns, v: nat, ref: seq<LogEntry>, k: nat) { v in R && Has(R[v].base, ref, k) }

  lemma {:induction false} FirstRegaining(R: Reigns, lo: nat, hi: nat, ref: seq<LogEntry>, k: nat) returns (v: nat)
    requires lo < hi && Regains(R, hi, ref, k)
    ensures lo < v <= hi && Regains(R, v, ref, k) && forall w :: lo < w < v ==> !Regains(R, w, ref, k)
    decreases hi
  {
    if u :| lo < u < hi && Regains(R, u, ref, k) {
      v := FirstRegaining(R, lo, u, ref, k);
    } else {
      v := hi;
    }
  }

  /** The first leader to have the prefix again stood for election with an old log. */
  lemma RegainedByOld(c: Config, s: State, v: nat, w: nat, ref: seq<LogEntry>, k: nat)
    requires Inv(c, s) && IsPrefix(s.reigns, ref, k) && ref[k].term < v < w
    requires Lacks(s.reigns, v, ref, k) && Regains(s.reigns, w, ref, k)
    requires forall u :: v < u < w ==> !Regains(s.reigns, u, ref, k)
    ensures s.reigns[w].leader in c.servers
    ensures Old(s, s.reigns[w].leader, s.reigns[w].base, w, v, ref, k)
  {
    var R, B := s.reigns, s.reigns[w].base;
    assert ReignOk(c, s.past, R, w);
    ReignFacts(c, s, w);
    EndsWithOwner(R, B, ref, k);
    var b := LastTerm(B);
    var again := Regains(R, b, ref, k);
    if b >= v { HadFromStart(c, s, b, ref, k); }
  }

  // ---- at most one member has an old log ----

  lemma {:induction false} OneOld(c: Config, s: State, v: nat, ref: seq<LogEntry>, k: nat,
                                  a: NodeId, p: seq<LogEntry>, hp: nat, b: NodeId, q: seq<LogEntry>, hq: nat)
    requires ConfigOk(c) && Small(c) && Inv(c, s) && AllSettled(c, s) && IsPrefix(s.reigns, ref, k)
    requires Lacks(s.reigns, v, ref, k) && a in c.servers && b in c.servers
    requires Old(s, a, p, hp, v, ref, k) && Old(s, b, q, hq, v, ref, k)
    ensures a == b
    decreases v, 1
  {
    if LastTerm(p) <= LastTerm(q) {
      OneOldOrdered(c, s, v, ref, k, a, p, hp, b, q, hq);
    } else {
      OneOldOrdered(c, s, v, ref, k, b, q, hq, a, p, hp);
    }
  }

  lemma {:induction false} OneOldOrdered(c: Config, s: State, v: nat, ref: seq<LogEntry>, k: nat,
                                         a: NodeId, p: seq<LogEntry>, hp: nat, b: NodeId, q: seq<LogEntry>, hq: nat)
    requires ConfigOk(c) && Small(c) && Inv(c, s) && AllSettled(c, s) && IsPrefix(s.reigns, ref, k)
    requires Lacks(s.reigns, v, ref, k) && a in c.servers && b in c.servers && LastTerm(p) <= LastTerm(q)
    requires Old(s, a, p, hp, v, ref, k) && Old(s, b, q, hq, v, ref, k)
    ensures a == b
    decreases v, 0
  {
    var first := FirstLacking(s.reigns, LastTerm(p), v, ref, k);
    if first > LastTerm(q) {
      NotAVoter(c, s, a, p, hp, first, ref, k);
      NotAVoter(c, s, b, q, hq, first, ref, k);
      assert ReignOk(c, s.past, s.reigns, first);
      OneNonvoter(c, s.reigns[first].voters, a, b);
    } else {
      LogAtOk(c, s, a, p, hp);
      LogAtOk(c, s, b, q, hq);
      EndsWithOwner(s.reigns, p, ref, k);
      var w := RegainedBetween(c, s, first, q, ref, k);
      RegainedByOld(c, s, first, w, ref, k);
      var y := s.reigns[w].leader;
      OneOld(c, s, first, ref, k, a, p, hp, y, s.reigns[w].base, w);
      OfficeReached(s.reigns, s.past[a], a, p, hp, w);
    }
  }

  lemma OfficeReached(R: Reigns, past: Past, id: NodeId, log: seq<LogEntry>, hi: nat, w: nat)
    requires SettledLog(R, past, id, log, hi) && w in R && w < hi && R[w].leader == id
    ensures LastTerm(log) >= w
  {
  }

  /** A log that holds the prefix and reaches past a leader that lacks it: some leader
      in between had it again. */
  lemma RegainedBetween(c: Config, s: State, v: nat, log: seq<LogEntry>, ref: seq<LogEntry>, k: nat) returns (w: nat)
    requires Inv(c, s) && IsPrefix(s.reigns, ref, k) && Lacks(s.reigns, v, ref, k) && ref[k].term < v <= LastTerm(log)
    requires WellFormed(log) && Grounded(s.reigns, log) && Has(log, ref, k)
    ensures v < w <= LastTerm(log) && Regains(s.reigns, w, ref, k)
    ensures forall u :: v < u < w ==> !Regains(s.reigns, u, ref, k)
  {
    EndsWithOwner(s.reigns, log, ref, k);
    HadFromStart(c, s, LastTerm(log), ref, k);
    w := FirstRegaining(s.reigns, v, LastTerm(log), ref, k);
  }

  // ---- no committed entry is cut ----

  /** A cut replaces what the request's leader does not have. */
  lemma CutLacks(c: Config, s: State, a: Action, id: NodeId, k: nat)
    requires ConfigOk(c) && Inv(c, s) && Enabled(c, s, a) && id in c.servers && k < |s.nodes[id].log|
    requires Cuts(c, s, a, id, k)
    ensures k >= 1 && a.msg.areq.term == s.nodes[id].term && s.nodes[id].term in s.reigns
    ensures !Has(s.reigns[s.nodes[id].term].log, s.nodes[id].log, k)
  {
    var n, req := s.nodes[id], a.msg.areq;
    FollowsFrom(c, s, id, req);
    assert NodeOk(c, s, id);
    MergeCutsIff(n.log, req, k);
    if Has(s.reigns[req.term].log, n.log, k) { MergeHolds(c, s, id, req, k); }
  }

  /** The recipient of a request that cuts has an old log. */
  lemma CutIsOld(c: Config, s: State, id: NodeId, k: nat)
    requires Inv(c, s) && id in c.servers && 1 <= k < |s.nodes[id].log| && s.nodes[id].term in s.reigns
    requires !Has(s.reigns[s.nodes[id].term].log, s.nodes[id].log, k)
    ensures var n := s.nodes[id];
            && IsPrefix(s.reigns, n.log, k) && n.log[k].term < n.term
            && Lacks(s.reigns, n.term, n.log, k) && Old(s, id, n.log, n.term + 1, n.term, n.log, k)
  {
    var n := s.nodes[id];
    assert NodeOk(c, s, id);
    EndsWithOwner(s.reigns, n.log, n.log, k);
    HadFromStart(c, s, n.term, n.log, k);
  }

  /** In a small cluster no step cuts an entry that any leader has committed. */
  lemma NoCommittedCut(c: Config, s: State, a: Action, id: NodeId, k: nat, t: nat)
    requires ConfigOk(c) && Small(c) && Inv(c, s) && AllSettled(c, s) && Enabled(c, s, a)
    requires id in c.servers && k < |s.nodes[id].log| && Committed(s, s.nodes[id].log, k, t)
    ensures !Cuts(c, s, a, id, k)
  {
    if Cuts(c, s, a, id, k) {
      OnlyStaleLeadersCut(c, s, a, id, k, t);
      CutLacks(c, s, a, id, k);
      CutIsOld(c, s, id, k);
      var w := CommittedLater(c, s, id, k, t);
      NeverLedAhead(c, s, id, w);
    }
  }

  /** The first later leader that has the committed entry is the recipient itself. */
  lemma CommittedLater(c: Config, s: State, id: NodeId, k: nat, t: nat) returns (w: nat)
    requires ConfigOk(c) && Small(c) && Inv(c, s) && AllSettled(c, s) && id in c.servers
    requires 1 <= k < |s.nodes[id].log| && Committed(s, s.nodes[id].log, k, t) && s.nodes[id].term < t
    requires var n := s.nodes[id];
             && IsPrefix(s.reigns, n.log, k) && n.log[k].term < n.term
             && Lacks(s.reigns, n.term, n.log, k) && Old(s, id, n.log, n.term + 1, n.term, n.log, k)
    ensures w > s.nodes[id].term && w in s.reigns && s.reigns[w].leader == id
  {
    var R, n := s.reigns, s.nodes[id];
    HadFromStart(c, s, t, n.log, k);
    assert Has(R[t].log, n.log, k);
    w := FirstRegaining(R, n.term, t, n.log, k);
    RegainedByOld(c, s, n.term, w, n.log, k);
    OneOld(c, s, n.term, n.log, k, id, n.log, n.term + 1, R[w].leader, R[w].base, w);
  }

  lemma NeverLedAhead(c: Config, s: State, id: NodeId, w: nat)
    requires Inv(c, s) && id in c.servers && w in s.reigns && s.reigns[w].leader == id
    ensures w <= s.nodes[id].term
  {
    BoundsHold(c, s, id);
  }

  // ---- over whole runs ----

  /** What x has committed and y holds at moment i, y still holds at moment j. */
  ghost predicate StillHeld(run: seq<State>, i: nat, j: nat, x: NodeId, y: NodeId, k: nat)
    requires i <= j < |run|
  {
    x in run[i].nodes && y in run[i].nodes && y in run[j].nodes
    && k <= run[i].nodes[x].commit && Has(run[i].nodes[y].log, run[i].nodes[x].log, k)
    ==> Has(run[j].nodes[y].log, run[i].nodes[y].log, k)
  }

  lemma StillCommitted(c: Config, run: seq<State>, i: nat, j: nat, x: NodeId, log: seq<LogEntry>, k: nat)
    returns (t: nat)
    requires IsRun(c, run) && i <= j < |run| && x in c.servers && x in run[i].nodes
    requires 1 <= k <= run[i].nodes[x].commit && Has(log, run[i].nodes[x].log, k)
    ensures Committed(run[j], log, k, t)
  {
    var n, s := run[i].nodes[x], run[j];
    CommittedJustified(c, run, i, x);
    JustifiedPersists(c, run, i, j, n.log, n.commit, n.term);
    t :| && t in s.commits && t in s.reigns && t <= n.term && n.commit <= s.commits[t].index
         && Has(n.log, s.reigns[t].log, n.commit);
    HasTrans(log, n.log, s.reigns[t].log, k, n.commit, k);
  }

  /** No committed entry is ever truncated anywhere: in a cluster of at most four members,
      an entry at or below any member's commit index, once on some log, stays on that log. */
  lemma {:induction false} NeverTruncated(c: Config, run: seq<State>, i: nat, j: nat, x: NodeId, y: NodeId, k: nat)
    requires IsRun(c, run) && Small(c) && i <= j < |run| && x in c.servers && y in c.servers
    requires x in run[i].nodes && y in run[i].nodes
    requires k <= run[i].nodes[x].commit && Has(run[i].nodes[y].log, run[i].nodes[x].log, k)
    ensures y in run[j].nodes && Has(run[j].nodes[y].log, run[i].nodes[y].log, k)
  {
    if i == j {
    } else {
      NeverTruncated(c, run, i, j - 1, x, y, k);
      var log := run[i].nodes[y].log;
      StepTruncatesNot(c, run, i, j, x, y, k);
      HasTrans(run[j].nodes[y].log, run[j - 1].nodes[y].log, log, k, k, k);
    }
  }

  lemma StepTruncatesNot(c: Config, run: seq<State>, i: nat, j: nat, x: NodeId, y: NodeId, k: nat)
    requires IsRun(c, run) && Small(c) && i < j < |run| && x in c.servers && y in c.servers
    requires x in run[i].nodes && y in run[i].nodes && y in run[j - 1].nodes && k <= run[i].nodes[x].commit
    requires Has(run[i].nodes[y].log, run[i].nodes[x].log, k)
    requires Has(run[j - 1].nodes[y].log, run[i].nodes[y].log, k)
    ensures y in run[j].nodes && Has(run[j].nodes[y].log, run[j - 1].nodes[y].log, k)
  {
    var s := run[j - 1];
    var a := RunAction(c, run, j - 1);
    StepCutsIff(c, s, a, y, k);
    if k >= 1 {
      RunSettled(c, run, j - 1);
      HasTrans(s.nodes[y].log, run[i].nodes[y].log, run[i].nodes[x].log, k, k, k);
      var t := StillCommitted(c, run, i, j - 1, x, s.nodes[y].log, k);
      NoCommittedCut(c, s, a, y, k, t);
    }
  }
}
