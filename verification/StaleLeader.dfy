/**
  Where a committed entry can be truncated: in every cluster of five members or more.

  a leads term 1 and copies its entry to x alone.  b leads term 2 with the votes of
  members that have nothing yet, and its first request to x is delayed.  a leads term 3
  with those same votes, and commits the entry with them.  Then the delayed request of
  term 2 reaches x, whose own term is still 1, and x replaces the entry.

  The program's configuration demands three members, and with at most four there is no
  such run (SmallClusters.dfy); so the size of the cluster decides, both ways.
 */
module StaleLeader {
  import opened Models
  import opened RaftNode
  import opened Cluster
  import opened ClusterInvariant
  import opened ClusterSafety
  import opened Handlers
  import opened ClusterMoves
  import opened SmallClusters

  /** The members by the part each of them plays; the followers vote for both leaders. */
  datatype Cast = Cast(a: NodeId, b: NodeId, x: NodeId, followers: set<NodeId>)

  const ONE: LogEntry := LogEntry(1, 1, Noop)    // term 1's entry
  const TWO: LogEntry := LogEntry(1, 2, Noop)    // term 2's entry
  const THREE: LogEntry := LogEntry(2, 3, Noop)  // term 3's entry

  /** With a or with b, the followers are just a majority; x is not needed. */
  ghost predicate CastOk(c: Config, k: Cast) {
    && k.a != k.b && k.a != k.x && k.b != k.x && {k.a, k.b, k.x} <= c.servers
    && k.followers <= c.servers - {k.a, k.b, k.x}
    && |k.followers| + 1 == c.quorum >= 2
  }

  predicate Is(n: NodeState, role: Role, term: nat, log: seq<LogEntry>) {
    n.role == role && n.term == term && n.log == log && n.commit == 0
  }

  ghost predicate AllAre(s: State, ids: set<NodeId>, term: nat) {
    forall p :: p in ids ==> p in s.nodes && Is(s.nodes[p], Follower, term, [SENTINEL])
  }

  /** The request that b makes in term 2 and that arrives late. */
  function Stale(c: Config, k: Cast): AppendReq {
    AppendReq(PROTOCOL_VERSION, c.clusterId, 2, k.b, 0, 0, [TWO], 0)
  }

  // ---- term 1 ----

  /** a leads term 1 and x alone has its entry. */
  ghost predicate TermOne(c: Config, k: Cast, s: State) {
    && CastOk(c, k) && Shaped(c, s)
    && Is(s.nodes[k.a], Leader, 1, [SENTINEL, ONE]) && Is(s.nodes[k.x], Follower, 1, [SENTINEL, ONE])
    && Is(s.nodes[k.b], Follower, 0, [SENTINEL]) && AllAre(s, k.followers, 1)
  }

  /** What a leader elected on an empty log first sends. */
  lemma FirstRequest(c: Config, id: NodeId, n: NodeState, p: NodeId)
    requires n.log == [SENTINEL] && n.commit == 0 && p in Peers(c, id)
    ensures var t := n.term + 1;
            AppendReqOf(c, id, Elected(c, id, n), p)
            == AppendReq(PROTOCOL_VERSION, c.clusterId, t, id, 0, 0, [LogEntry(1, t, Noop)], 0)
  {
    assert Elected(c, id, n).log[1..] == [LogEntry(1, n.term + 1, Noop)];
  }

  lemma AllWilling(s: State, id: NodeId, ids: set<NodeId>, term: nat)
    requires AllAre(s, ids, term) && id in s.nodes && term <= s.nodes[id].term
    requires s.nodes[id].log == [SENTINEL] || s.nodes[id].log == [SENTINEL, ONE]
    ensures forall v {:trigger Willing(s, id, v)} :: v in ids ==> Willing(s, id, v)
  {
    forall v | v in ids ensures Willing(s, id, v) { assert v in s.nodes && Is(s.nodes[v], Follower, term, [SENTINEL]); }
  }

  /** The followers vote, and are otherwise as they were. */
  lemma VotersAre(c: Config, s: State, id: NodeId, ids: set<NodeId>, term: nat, r: State)
    requires Shaped(c, s) && Shaped(c, r) && id in c.servers && ids <= c.servers - {id}
    requires ElectedFrom(c, s, id, ids, r) && AllAre(s, ids, term) && term <= s.nodes[id].term
    ensures AllAre(r, ids, s.nodes[id].term + 1)
  {
    forall p | p in ids ensures p in r.nodes && Is(r.nodes[p], Follower, s.nodes[id].term + 1, [SENTINEL]) {
      assert Is(s.nodes[p], Follower, term, [SENTINEL]);
    }
  }

  lemma ReachTermOne(c: Config, k: Cast) returns (s: State)
    requires CastOk(c, k) && Shaped(c, InitState(c))
    ensures Moves(c, InitState(c), s) && TermOne(c, k, s)
  {
    var i := InitState(c);
    assert AllAre(i, k.followers, 0);
    AllWilling(i, k.a, k.followers, 0);
    var t := IsElected(c, i, k.a, k.followers, k.x);
    VotersAre(c, i, k.a, k.followers, 0, t);
    FirstRequest(c, k.a, i.nodes[k.a], k.x);
    s := CopiesFirst(c, k, t);
    MovesOn(c, i, t, s);
  }

  lemma CopiesFirst(c: Config, k: Cast, s: State) returns (r: State)
    requires CastOk(c, k) && Shaped(c, s) && s.nodes[k.a].role == Leader && Is(s.nodes[k.x], Follower, 0, [SENTINEL])
    requires AppendReqOf(c, k.a, s.nodes[k.a], k.x) == AppendReq(PROTOCOL_VERSION, c.clusterId, 1, k.a, 0, 0, [ONE], 0)
    ensures Moves(c, s, r) && r.nodes == s.nodes[k.x := r.nodes[k.x]] && Is(r.nodes[k.x], Follower, 1, [SENTINEL, ONE])
  {
    var req := AppendReqOf(c, k.a, s.nodes[k.a], k.x);
    var t := Sends(c, s, k.a, k.x);
    var u := Observes(c, t, k.x, AppendCall(k.x, req));
    r := Repairs(c, u, k.x, req);
    MovesOn(c, s, t, u);
    MovesOn(c, s, u, r);
    FirstStored(u.nodes[k.x], req);
    Overwrites(s.nodes, k.x, u.nodes[k.x], r.nodes[k.x]);
  }

  lemma FirstStored(n: NodeState, req: AppendReq)
    requires Is(n, Follower, 1, [SENTINEL]) && req.term == 1 && req.prevIndex == 0 && req.entries == [ONE]
    ensures Is(AcceptAppend(n, req).0, Follower, 1, [SENTINEL, ONE])
  {
    assert Reconcile([SENTINEL], 0, [ONE]) == [SENTINEL] + [ONE];
  }

  // ---- term 2 ----

  /** b leads term 2; its request to x is on its way. */
  ghost predicate TermTwo(c: Config, k: Cast, s: State) {
    && CastOk(c, k) && Shaped(c, s) && AppendCall(k.x, Stale(c, k)) in s.net
    && Is(s.nodes[k.a], Leader, 1, [SENTINEL, ONE]) && Is(s.nodes[k.x], Follower, 1, [SENTINEL, ONE])
    && AllAre(s, k.followers, 2)
    && VoteCall(k.a, VoteReq(PROTOCOL_VERSION, c.clusterId, 2, k.b, 0, 0)) in s.net
  }

  lemma ReachTermTwo(c: Config, k: Cast, s: State) returns (r: State)
    requires TermOne(c, k, s)
    ensures Moves(c, s, r) && TermTwo(c, k, r)
  {
    var t := Campaigns(c, s, k.b);
    var u := Deposes(c, k, t);
    r := Sends(c, u, k.b, k.x);
    MovesOn(c, s, t, u);
    MovesOn(c, s, u, r);
  }

  lemma Deposes(c: Config, k: Cast, s: State) returns (r: State)
    requires CastOk(c, k) && Shaped(c, s) && Is(s.nodes[k.b], Candidate, 1, [SENTINEL]) && AllAre(s, k.followers, 1)
    ensures Moves(c, s, r) && r.nodes[k.a] == s.nodes[k.a] && r.nodes[k.x] == s.nodes[k.x]
    ensures AllAre(r, k.followers, 2)
    ensures VoteCall(k.a, VoteReq(PROTOCOL_VERSION, c.clusterId, 2, k.b, 0, 0)) in r.net
    ensures r.nodes[k.b].role == Leader && AppendReqOf(c, k.b, r.nodes[k.b], k.x) == Stale(c, k)
  {
    AllWilling(s, k.b, k.followers, 1);
    r := IsElected(c, s, k.b, k.followers, k.a);
    VotersAre(c, s, k.b, k.followers, 1, r);
    FirstRequest(c, k.b, s.nodes[k.b], k.x);
  }

  // ---- term 3 ----

  /** The leader's progress for p is at `next`, with nothing acknowledged, and p has nothing. */
  ghost predicate Behind(s: State, k: Cast, p: NodeId, next: nat) {
    && p in s.nodes && k.a in s.nodes && Is(s.nodes[p], Follower, 3, [SENTINEL])
    && var n := s.nodes[k.a];
    p in n.nexts && n.nexts[p] == next && p in n.matches && n.matches[p] == 0
  }

  ghost predicate AllBehind(s: State, k: Cast, ids: set<NodeId>) {
    forall p {:trigger Behind(s, k, p, 2)} :: p in ids ==> Behind(s, k, p, 2)
  }

  /** a leads term 3 and has not copied anything yet. */
  ghost predicate TermThree(c: Config, k: Cast, s: State) {
    && CastOk(c, k) && Shaped(c, s) && AppendCall(k.x, Stale(c, k)) in s.net
    && Is(s.nodes[k.a], Leader, 3, [SENTINEL, ONE, THREE]) && Is(s.nodes[k.x], Follower, 1, [SENTINEL, ONE])
    && AllBehind(s, k, k.followers)
  }

  lemma ReachTermThree(c: Config, k: Cast, s: State) returns (r: State)
    requires TermTwo(c, k, s)
    ensures Moves(c, s, r) && TermThree(c, k, r)
  {
    var t := Observes(c, s, k.a, VoteCall(k.a, VoteReq(PROTOCOL_VERSION, c.clusterId, 2, k.b, 0, 0)));
    assert AllAre(t, k.followers, 2);
    AllWilling(t, k.a, k.followers, 2);
    r := IsElected(c, t, k.a, k.followers, k.x);
    VotersAre(c, t, k.a, k.followers, 2, r);
    MovesOn(c, s, t, r);
    NewlyElected(c, k, t.nodes[k.a]);
  }

  lemma NewlyElected(c: Config, k: Cast, n: NodeState)
    requires CastOk(c, k) && n.term == 2 && n.log == [SENTINEL, ONE] && n.commit == 0
    ensures var m := Elected(c, k.a, n);
            && Is(m, Leader, 3, [SENTINEL, ONE, THREE])
            && forall p {:trigger m.nexts[p]} :: p in k.followers ==>
                 p in m.nexts && m.nexts[p] == 2 && p in m.matches && m.matches[p] == 0
  {
  }

  // ---- the followers catch up, one by one ----

  /** A follower that has nothing refuses, and the leader backs up to the start. */
  lemma Refusal(c: Config, k: Cast, n: NodeState, m: NodeState, p: NodeId)
    requires Is(n, Leader, 3, [SENTINEL, ONE, THREE]) && Is(m, Follower, 3, [SENTINEL])
    requires p in n.nexts && n.nexts[p] == 2
    ensures var (m', resp) := AcceptAppend(m, AppendReqOf(c, k.a, n, p));
            && Is(m', Follower, 3, [SENTINEL]) && OnAppendResp(n, p, 3, resp) == n.(nexts := n.nexts[p := 1])
  {
  }

  /** Then the leader copies its whole log. */
  lemma Acceptance(c: Config, k: Cast, n: NodeState, m: NodeState, p: NodeId)
    requires Is(n, Leader, 3, [SENTINEL, ONE, THREE]) && Is(m, Follower, 3, [SENTINEL])
    requires p in n.nexts && n.nexts[p] == 1 && p in n.matches && n.matches[p] == 0
    ensures OnAppendResp(n, p, 3, AcceptAppend(m, AppendReqOf(c, k.a, n, p)).1)
            == n.(matches := n.matches[p := 2], nexts := n.nexts[p := 3])
  {
    assert AppendReqOf(c, k.a, n, p).entries == [ONE, THREE];
  }

  ghost predicate Leading(c: Config, k: Cast, s: State) {
    CastOk(c, k) && Shaped(c, s) && Is(s.nodes[k.a], Leader, 3, [SENTINEL, ONE, THREE])
  }

  lemma BacksUp(c: Config, k: Cast, s: State, p: NodeId) returns (r: State)
    requires Leading(c, k, s) && p in k.followers && Behind(s, k, p, 2)
    ensures Moves(c, s, r) && Behind(r, k, p, 1)
    ensures var n := s.nodes[k.a];
            r.nodes == s.nodes[p := r.nodes[p]][k.a := n.(nexts := n.nexts[p := 1])]
  {
    r := Exchanges(c, s, k.a, p);
    Refusal(c, k, s.nodes[k.a], s.nodes[p], p);
  }

  lemma Copies(c: Config, k: Cast, s: State, p: NodeId) returns (r: State)
    requires Leading(c, k, s) && p in k.followers && Behind(s, k, p, 1)
    ensures Moves(c, s, r)
    ensures var n := s.nodes[k.a];
            r.nodes == s.nodes[p := r.nodes[p]][k.a := n.(matches := n.matches[p := 2], nexts := n.nexts[p := 3])]
  {
    r := Exchanges(c, s, k.a, p);
    Acceptance(c, k, s.nodes[k.a], s.nodes[p], p);
  }

  lemma CopiesTo(c: Config, k: Cast, s: State, p: NodeId) returns (r: State)
    requires Leading(c, k, s) && p in k.followers && Behind(s, k, p, 2)
    ensures Moves(c, s, r)
    ensures var n := s.nodes[k.a];
            r.nodes == s.nodes[p := r.nodes[p]][k.a := n.(matches := n.matches[p := 2], nexts := n.nexts[p := 3])]
  {
    var t := BacksUp(c, k, s, p);
    r := Copies(c, k, t, p);
    MovesOn(c, s, t, r);
    var n, m := s.nodes[k.a], t.nodes[k.a];
    Overwrites(n.nexts, p, 1, 3);
    assert m.(matches := m.matches[p := 2], nexts := m.nexts[p := 3])
        == n.(matches := n.matches[p := 2], nexts := n.nexts[p := 3]);
    OverwritesTwo(s.nodes, p, k.a, t.nodes[p], m, r.nodes[p], r.nodes[k.a]);
  }

  /** The follower has acknowledged everything. */
  ghost predicate Copied(s: State, k: Cast, p: NodeId) {
    k.a in s.nodes && p in s.nodes[k.a].matches && s.nodes[k.a].matches[p] == 2
  }

  ghost predicate AllCopied(s: State, k: Cast, ids: set<NodeId>) {
    forall p {:trigger Copied(s, k, p)} :: p in ids ==> Copied(s, k, p)
  }

  /** x has not moved, and what others had acknowledged stays acknowledged. */
  ghost predicate SameElse(s: State, r: State, k: Cast, ids: set<NodeId>) {
    && k.x in s.nodes && k.x in r.nodes && r.nodes[k.x] == s.nodes[k.x]
    && forall p {:trigger Copied(r, k, p)} :: p !in ids && Copied(s, k, p) ==> Copied(r, k, p)
  }

  lemma {:induction false} CopiesToAll(c: Config, k: Cast, s: State, ids: set<NodeId>) returns (r: State)
    requires Leading(c, k, s) && ids <= k.followers && AllBehind(s, k, ids)
    ensures Moves(c, s, r) && Leading(c, k, r) && AllCopied(r, k, ids) && SameElse(s, r, k, ids)
    decreases ids
  {
    if ids == {} {
      r := s;
      LeadsNowhere(c, s);
    } else {
      var p :| p in ids;
      assert Behind(s, k, p, 2);
      var t := CopiesTo(c, k, s, p);
      OneMoreCopied(c, k, s, p, t, ids);
      r := CopiesToAll(c, k, t, ids - {p});
      MovesOn(c, s, t, r);
      CopiedOn(s, t, r, k, p, ids);
    }
  }

  lemma OneMoreCopied(c: Config, k: Cast, s: State, p: NodeId, t: State, ids: set<NodeId>)
    requires Leading(c, k, s) && Shaped(c, t) && ids <= k.followers && p in ids && AllBehind(s, k, ids)
    requires var n := s.nodes[k.a];
             t.nodes == s.nodes[p := t.nodes[p]][k.a := n.(matches := n.matches[p := 2], nexts := n.nexts[p := 3])]
    ensures Leading(c, k, t) && AllBehind(t, k, ids - {p}) && Copied(t, k, p) && SameElse(s, t, k, {p})
  {
    forall q | q in ids - {p} ensures Behind(t, k, q, 2) { assert Behind(s, k, q, 2); }
  }

  lemma CopiedOn(s: State, t: State, r: State, k: Cast, p: NodeId, ids: set<NodeId>)
    requires p in ids && Copied(t, k, p) && SameElse(s, t, k, {p})
    requires SameElse(t, r, k, ids - {p}) && AllCopied(r, k, ids - {p})
    ensures AllCopied(r, k, ids) && SameElse(s, r, k, ids)
  {
    forall q | q in ids ensures Copied(r, k, q) { assert q != p ==> q in ids - {p}; }
    forall q | q !in ids && Copied(s, k, q) ensures Copied(r, k, q) { assert Copied(t, k, q); }
  }

  /** The entry is committed, x holds it, and the stale request is still on its way. */
  ghost predicate CommittedAtLast(c: Config, k: Cast, s: State) {
    && CastOk(c, k) && Shaped(c, s) && AppendCall(k.x, Stale(c, k)) in s.net
    && s.nodes[k.a].log == [SENTINEL, ONE, THREE] && s.nodes[k.a].commit == 2
    && Is(s.nodes[k.x], Follower, 1, [SENTINEL, ONE])
  }

  lemma Commits(c: Config, k: Cast, s: State) returns (r: State)
    requires Leading(c, k, s) && AllCopied(s, k, k.followers)
    ensures Moves(c, s, r) && r.nodes == s.nodes[k.a := s.nodes[k.a].(commit := 2)]
  {
    var n := s.nodes[k.a];
    assert k.followers + {k.a} <= Holders(c, k.a, n, 2) by {
      forall p | p in k.followers ensures p in Holders(c, k.a, n, 2) { assert Copied(s, k, p); }
    }
    SubsetSize(k.followers + {k.a}, Holders(c, k.a, n, 2));
    r := Do(c, s, AdvanceCommit(k.a, 2));
    LeadsOneStep(c, s, AdvanceCommit(k.a, 2));
  }

  lemma ReachCommitted(c: Config, k: Cast, s: State) returns (r: State)
    requires TermThree(c, k, s)
    ensures Moves(c, s, r) && CommittedAtLast(c, k, r)
  {
    var t := CopiesToAll(c, k, s, k.followers);
    r := Commits(c, k, t);
    MovesOn(c, s, t, r);
  }

  // ---- the late request ----

  lemma StaleRequestCuts(c: Config, k: Cast, s: State) returns (r: State)
    requires CommittedAtLast(c, k, s)
    ensures Moves(c, s, r) && r.nodes[k.a] == s.nodes[k.a] && r.nodes[k.x].log == [SENTINEL, TWO]
  {
    var t := Observes(c, s, k.x, AppendCall(k.x, Stale(c, k)));
    r := Repairs(c, t, k.x, Stale(c, k));
    MovesOn(c, s, t, r);
    Replaced(c, k, t.nodes[k.x]);
  }

  lemma Replaced(c: Config, k: Cast, n: NodeState)
    requires Is(n, Follower, 2, [SENTINEL, ONE])
    ensures AcceptAppend(n, Stale(c, k)).0.log == [SENTINEL, TWO]
  {
    assert !Holds([SENTINEL, ONE], 0, [TWO], 0);
    assert Reconcile([SENTINEL, ONE], 0, [TWO]) == [SENTINEL] + [TWO];
  }

  lemma WholeRun(c: Config, k: Cast) returns (s: State, r: State)
    requires CastOk(c, k) && Shaped(c, InitState(c))
    ensures Moves(c, InitState(c), s) && CommittedAtLast(c, k, s)
    ensures Moves(c, s, r) && r.nodes[k.a] == s.nodes[k.a] && r.nodes[k.x].log == [SENTINEL, TWO]
  {
    var init := InitState(c);
    var s1 := ReachTermOne(c, k);
    var s2 := ReachTermTwo(c, k, s1);
    var s3 := ReachTermThree(c, k, s2);
    s := ReachCommitted(c, k, s3);
    MovesOn(c, init, s1, s2);
    MovesOn(c, init, s2, s3);
    MovesOn(c, init, s3, s);
    r := StaleRequestCuts(c, k, s);
  }

  // ---- every cluster of five or more ----

  lemma Pop(ids: set<NodeId>) returns (p: NodeId, rest: set<NodeId>)
    requires |ids| > 0
    ensures p !in rest && ids == {p} + rest && |rest| == |ids| - 1
  {
    p :| p in ids;
    rest := ids - {p};
  }

  lemma {:induction false} SomeOf(ids: set<NodeId>, n: nat) returns (some: set<NodeId>)
    requires n <= |ids|
    ensures some <= ids && |some| == n
    decreases |ids|
  {
    if n == |ids| {
      some := ids;
    } else {
      var p, rest := Pop(ids);
      some := SomeOf(rest, n);
    }
  }

  lemma Casting(c: Config) returns (k: Cast)
    requires ConfigOk(c) && |c.servers| >= 5
    ensures CastOk(c, k)
  {
    var a, r2 := Pop(c.servers);
    var b, r1 := Pop(r2);
    var x, r0 := Pop(r1);
    var followers := SomeOf(r0, c.quorum - 1);
    k := Cast(a, b, x, followers);
  }

  lemma EntryLost(log: seq<LogEntry>)
    requires log == [SENTINEL, ONE, THREE]
    ensures Has([SENTINEL, ONE], log, 1) && !Has([SENTINEL, TWO], log, 1) && !Has([SENTINEL, TWO], [SENTINEL, ONE], 1)
  {
    assert [SENTINEL, TWO][..2][1] != log[..2][1];
    assert [SENTINEL, TWO][..2][1] != [SENTINEL, ONE][..2][1];
  }

  /** In every cluster of five or more there is a run in which a member holds an entry at
      moment i that another has committed, and at the end it does not. */
  lemma StaleLeaderCuts(c: Config) returns (run: seq<State>, i: nat, a: NodeId, x: NodeId)
    requires ConfigOk(c) && "" !in c.servers && |c.servers| >= 5
    ensures IsRun(c, run) && i < |run| && Shaped(c, run[i]) && Shaped(c, run[|run| - 1])
    ensures a in c.servers && x in c.servers
    ensures var s, r := run[i].nodes, run[|run| - 1].nodes;
            && s[a].commit >= 1 && Has(s[x].log, s[a].log, 1) && s[x].commit == 0
            && r[a] == s[a] && !Has(r[x].log, s[a].log, 1) && !Has(r[x].log, s[x].log, 1)
  {
    var k := Casting(c);
    var s, r := WholeRun(c, k);
    var init := InitState(c);
    assert IsRun(c, [init]);
    var prefix := LeadsStaysReachable(c, [init], s);
    run := LeadsStaysReachable(c, prefix, r);
    i, a, x := |prefix| - 1, k.a, k.x;
    EntryLost(s.nodes[a].log);
  }

  // ---- the size of the cluster decides ----

  /** In no run of this cluster is a committed entry truncated anywhere. */
  ghost predicate TruncatesNothing(c: Config) {
    forall run, i, j, x, y, k {:trigger StillHeld(run, i, j, x, y, k)} ::
      IsRun(c, run) && 0 <= i <= j < |run| && x in c.servers && y in c.servers && k >= 0 ==>
        StillHeld(run, i, j, x, y, k)
  }

  /** A committed entry is never truncated anywhere if and only if the cluster has at most four members. */
  lemma TruncatesNothingIff(c: Config)
    requires ConfigOk(c) && "" !in c.servers
    ensures TruncatesNothing(c) <==> |c.servers| <= 4
  {
    if |c.servers| <= 4 {
      forall run, i, j, x, y, k
        | IsRun(c, run) && 0 <= i <= j < |run| && x in c.servers && y in c.servers && k >= 0
        ensures StillHeld(run, i, j, x, y, k)
      {
        KeepsAll(c, run, i, j, x, y, k);
      }
    } else {
      var run, i, a, x := StaleLeaderCuts(c);
      assert !StillHeld(run, i, |run| - 1, a, x, 1);
    }
  }

  lemma KeepsAll(c: Config, run: seq<State>, i: nat, j: nat, x: NodeId, y: NodeId, k: nat)
    requires IsRun(c, run) && Small(c) && i <= j < |run| && x in c.servers && y in c.servers
    ensures StillHeld(run, i, j, x, y, k)
  {
    if x in run[i].nodes && y in run[i].nodes && k <= run[i].nodes[x].commit
       && Has(run[i].nodes[y].log, run[i].nodes[x].log, k) {
      NeverTruncated(c, run, i, j, x, y, k);
    }
  }
}
