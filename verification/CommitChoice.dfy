/**
  The commit choice is exact.  Sorting the match indexes and taking the
  quorum-th largest, then checking only that entry's term, finds the largest index
  that may be committed by counting whenever there is one.
 */
module CommitChoice {
  import opened Models
  import opened RaftNode
  import opened Cluster
  import opened ClusterInvariant
  import opened ClusterSafety

  // ---- sorting, largest first ----

  ghost predicate Descending(s: seq<nat>) {
    forall i, j :: 0 <= i <= j < |s| ==> s[i] >= s[j]
  }

  /** How many elements are at least j. */
  function AtLeast(s: seq<nat>, j: nat): nat {
    if |s| == 0 then 0 else AtLeast(s[1..], j) + if s[0] >= j then 1 else 0
  }

  function Insert(s: seq<nat>, x: nat): (r: seq<nat>)
    ensures |r| == |s| + 1 && multiset(r) == multiset(s) + multiset{x}
  {
    if |s| == 0 || x >= s[0] then [x] + s
    else
      assert s == [s[0]] + s[1..];
      [s[0]] + Insert(s[1..], x)
  }

  function SortDescending(s: seq<nat>): (r: seq<nat>)
    ensures |r| == |s| && multiset(r) == multiset(s)
  {
    if |s| == 0 then []
    else
      assert s == [s[0]] + s[1..];
      Insert(SortDescending(s[1..]), s[0])
  }

  lemma {:induction false} InsertKeepsOrder(s: seq<nat>, x: nat)
    requires Descending(s)
    ensures Descending(Insert(s, x))
  {
    if |s| > 0 && x < s[0] {
      var rest := Insert(s[1..], x);
      InsertKeepsOrder(s[1..], x);
      forall i | 0 <= i < |rest| ensures rest[i] <= s[0] {
        assert rest[i] in multiset(rest);
        assert rest[i] == x || rest[i] in s[1..];
      }
    }
  }

  lemma {:induction false} InsertCounts(s: seq<nat>, x: nat, j: nat)
    ensures AtLeast(Insert(s, x), j) == AtLeast(s, j) + if x >= j then 1 else 0
  {
    if |s| == 0 || x >= s[0] {
      assert ([x] + s)[1..] == s;
    } else {
      InsertCounts(s[1..], x, j);
      assert Insert(s, x)[1..] == Insert(s[1..], x);
    }
  }

  lemma {:induction false} SortedCounts(s: seq<nat>, j: nat)
    ensures Descending(SortDescending(s)) && AtLeast(SortDescending(s), j) == AtLeast(s, j)
  {
    if |s| == 0 {
    } else {
      SortedCounts(s[1..], j);
      InsertKeepsOrder(SortDescending(s[1..]), s[0]);
      InsertCounts(SortDescending(s[1..]), s[0], j);
    }
  }

  /** In descending order, position q - 1 holds the largest bound that q elements reach. */
  lemma {:induction false} RankCounts(s: seq<nat>, q: nat, j: nat)
    requires Descending(s) && 1 <= q <= |s|
    ensures s[q - 1] >= j <==> AtLeast(s, j) >= q
  {
    if q > 1 {
      RankCounts(s[1..], q - 1, j);
    } else if s[0] < j {
      NoneReach(s, j);
    }
  }

  lemma {:induction false} NoneReach(s: seq<nat>, j: nat)
    requires forall i :: 0 <= i < |s| ==> s[i] < j
    ensures AtLeast(s, j) == 0
  {
    if |s| == 0 {
    } else {
      NoneReach(s[1..], j);
    }
  }

  // ---- match indexes and the members that hold an entry ----

  /** The peers as the node lists them: each one once. */
  ghost predicate Lists(c: Config, id: NodeId, peers: seq<NodeId>) {
    && (forall p :: p in peers <==> p in Peers(c, id))
    && (forall i, j :: 0 <= i < j < |peers| ==> peers[i] != peers[j])
  }

  function MatchOf(n: NodeState, p: NodeId): nat {
    if p in n.matches then n.matches[p] else 0
  }

  function MatchesOf(n: NodeState, peers: seq<NodeId>): (r: seq<nat>)
    ensures |r| == |peers| && forall i :: 0 <= i < |peers| ==> r[i] == MatchOf(n, peers[i])
  {
    if |peers| == 0 then [] else [MatchOf(n, peers[0])] + MatchesOf(n, peers[1..])
  }

  ghost function Reaching(n: NodeState, peers: seq<NodeId>, j: nat): set<NodeId> {
    set p | p in peers && MatchOf(n, p) >= j
  }

  lemma {:induction false} ReachingCounts(n: NodeState, peers: seq<NodeId>, j: nat)
    requires forall i, k :: 0 <= i < k < |peers| ==> peers[i] != peers[k]
    ensures |Reaching(n, peers, j)| == AtLeast(MatchesOf(n, peers), j)
  {
    if |peers| > 0 {
      var p, rest := peers[0], peers[1..];
      assert peers == [p] + rest;
      ReachingCounts(n, rest, j);
      var r := MatchesOf(n, peers);
      assert r[1..] == MatchesOf(n, rest);
      assert p !in Reaching(n, rest, j);
      if MatchOf(n, p) >= j {
        assert Reaching(n, peers, j) == Reaching(n, rest, j) + {p};
      } else {
        assert Reaching(n, peers, j) == Reaching(n, rest, j);
      }
    }
  }

  lemma HoldersAre(c: Config, id: NodeId, n: NodeState, peers: seq<NodeId>, j: nat)
    requires id in c.servers && (forall p :: p in peers <==> p in Peers(c, id)) && j >= 1
    ensures id !in Reaching(n, peers, j)
    ensures Holders(c, id, n, j) == Reaching(n, peers, j) + if j < |n.log| then {id} else {}
  {
    forall p ensures p in Holders(c, id, n, j) <==> p in Reaching(n, peers, j) || (p == id && j < |n.log|) {
      assert p in peers <==> p in Peers(c, id);
    }
  }

  /** Counting match indexes at or above j, its own last index included, counts the holders of j. */
  lemma HoldersCount(c: Config, id: NodeId, n: NodeState, peers: seq<NodeId>, j: nat)
    requires id in c.servers && Lists(c, id, peers) && |n.log| >= 1 && j >= 1
    ensures |Holders(c, id, n, j)| == AtLeast([LastIndex(n.log)] + MatchesOf(n, peers), j)
  {
    var all := [LastIndex(n.log)] + MatchesOf(n, peers);
    assert all[1..] == MatchesOf(n, peers);
    ReachingCounts(n, peers, j);
    HoldersAre(c, id, n, peers, j);
  }

  lemma {:induction false} ListSize(peers: seq<NodeId>, s: set<NodeId>)
    requires (forall p :: p in peers <==> p in s) && forall i, j :: 0 <= i < j < |peers| ==> peers[i] != peers[j]
    ensures |peers| == |s|
  {
    if |peers| == 0 {
      assert s == {};
    } else {
      var p, rest := peers[0], peers[1..];
      assert peers == [p] + rest;
      ListSize(rest, s - {p});
    }
  }

  // ---- the choice ----

  /** The highest index that a majority is known to hold. */
  function MajorityIndex(c: Config, n: NodeState, peers: seq<NodeId>): nat
    requires 1 <= c.quorum <= |peers| + 1
  {
    SortDescending([LastIndex(n.log)] + MatchesOf(n, peers))[c.quorum - 1]
  }

  /** What the leader commits, if anything: the majority index, if it is news and of this term. */
  function ChooseCommit(c: Config, n: NodeState, peers: seq<NodeId>): Option<nat>
    requires 1 <= c.quorum <= |peers| + 1
  {
    var k := MajorityIndex(c, n, peers);
    if k <= n.commit || k >= |n.log| || n.log[k].term != n.term then None else Some(k)
  }

  lemma QuorumFits(c: Config, id: NodeId, peers: seq<NodeId>)
    requires ConfigOk(c) && id in c.servers && Lists(c, id, peers)
    ensures 1 <= c.quorum <= |peers| + 1
  {
    ListSize(peers, Peers(c, id));
    assert |c.servers| == |Peers(c, id)| + 1 by { assert c.servers == Peers(c, id) + {id}; }
  }

  lemma MajorityIndexIsExact(c: Config, id: NodeId, n: NodeState, peers: seq<NodeId>, j: nat)
    requires ConfigOk(c) && id in c.servers && Lists(c, id, peers) && |n.log| >= 1 && j >= 1
    ensures 1 <= c.quorum <= |peers| + 1
    ensures |Holders(c, id, n, j)| >= c.quorum <==> j <= MajorityIndex(c, n, peers)
  {
    QuorumFits(c, id, peers);
    HoldersCount(c, id, n, peers, j);
    SortedCounts([LastIndex(n.log)] + MatchesOf(n, peers), j);
    RankCounts(SortDescending([LastIndex(n.log)] + MatchesOf(n, peers)), c.quorum, j);
  }

  /** No peer is known to hold more than the leader's own log. */
  ghost predicate MatchesWithin(c: Config, id: NodeId, n: NodeState) {
    forall p :: p in Peers(c, id) ==> MatchOf(n, p) < |n.log|
  }

  lemma MajorityInLog(c: Config, id: NodeId, n: NodeState, peers: seq<NodeId>)
    requires ConfigOk(c) && id in c.servers && Lists(c, id, peers) && |n.log| >= 1 && MatchesWithin(c, id, n)
    ensures 1 <= c.quorum <= |peers| + 1 && MajorityIndex(c, n, peers) < |n.log|
  {
    QuorumFits(c, id, peers);
    var k := MajorityIndex(c, n, peers);
    if k >= 1 {
      MajorityIndexIsExact(c, id, n, peers, k);
      assert Holders(c, id, n, k) != {};
      var p :| p in Holders(c, id, n, k);
      assert p != id ==> p in Peers(c, id) && k <= MatchOf(n, p);
    }
  }

  /** The choice is the largest committable index, and there is none exactly when it
      chooses none.  Only the terms' never falling along the log makes checking one
      entry enough. */
  lemma CommitChoiceIsExact(c: Config, id: NodeId, n: NodeState, peers: seq<NodeId>, j: nat)
    requires ConfigOk(c) && id in c.servers && Lists(c, id, peers)
    requires WellFormed(n.log) && LastTerm(n.log) <= n.term && MatchesWithin(c, id, n)
    ensures 1 <= c.quorum <= |peers| + 1
    ensures ChooseCommit(c, n, peers).Some? ==> Committable(c, id, n, ChooseCommit(c, n, peers).value)
    ensures Committable(c, id, n, j) ==> ChooseCommit(c, n, peers).Some? && j <= ChooseCommit(c, n, peers).value
  {
    QuorumFits(c, id, peers);
    MajorityInLog(c, id, n, peers);
    var k := MajorityIndex(c, n, peers);
    if k >= 1 { MajorityIndexIsExact(c, id, n, peers, k); }
    if Committable(c, id, n, j) {
      MajorityIndexIsExact(c, id, n, peers, j);
      assert TermsRise(n.log, j, k) && TermsRise(n.log, k, |n.log| - 1);
    }
  }

  /** So it is for every leader, */
  lemma LeaderChoosesExactly(c: Config, s: State, id: NodeId, peers: seq<NodeId>, j: nat)
    requires ConfigOk(c) && Inv(c, s) && id in c.servers && s.nodes[id].role == Leader && Lists(c, id, peers)
    ensures 1 <= c.quorum <= |peers| + 1
    ensures var n := s.nodes[id]; var choice := ChooseCommit(c, n, peers);
            && (choice.Some? ==> Committable(c, id, n, choice.value))
            && (Committable(c, id, n, j) ==> choice.Some? && j <= choice.value)
  {
    var n := s.nodes[id];
    assert NodeOk(c, s, id);
    forall p | p in Peers(c, id) ensures MatchOf(n, p) < |n.log| {
      assert ProgressOk(s.past, n, p);
      assert NodeOk(c, s, p);
    }
    CommitChoiceIsExact(c, id, n, peers, j);
  }

  /** of every run. */
  lemma LeadersChooseExactly(c: Config, run: seq<State>, i: nat, id: NodeId, peers: seq<NodeId>, j: nat)
    requires IsRun(c, run) && i < |run| && id in c.servers && id in run[i].nodes && run[i].nodes[id].role == Leader
    requires Lists(c, id, peers)
    ensures 1 <= c.quorum <= |peers| + 1
    ensures var n := run[i].nodes[id]; var choice := ChooseCommit(c, n, peers);
            && (choice.Some? ==> Committable(c, id, n, choice.value))
            && (Committable(c, id, n, j) ==> choice.Some? && j <= choice.value)
  {
    RunInv(c, run, i);
    LeaderChoosesExactly(c, run[i], id, peers, j);
  }
}
