/**
  Pruning in place: expired decision records and all but the newest audits are
  collected from the ordered store first, then deleted.
 */
module Pruning {
  import opened Models
  import opened Encoding
  import opened StateStore
  import SM = StateMachine

  // ---- lists without repetition ----

  function Elements<T(==)>(s: seq<T>): set<T> { set x | x in s }

  ghost predicate Distinct<T>(s: seq<T>) {
    forall i, j :: 0 <= i < j < |s| ==> s[i] != s[j]
  }

  lemma ElementsGrow<T>(s: seq<T>, i: nat)
    requires i < |s|
    ensures Elements(s[..i + 1]) == Elements(s[..i]) + {s[i]}
  {
    var hi := i + 1;
    assert s[..hi] == s[..i] + [s[i]];
  }

  lemma {:induction false} DistinctSize<T>(s: seq<T>)
    requires Distinct(s)
    ensures |Elements(s)| == |s|
  {
    if |s| == 0 {
    } else {
      var n := |s| - 1;
      DistinctSize(s[..n]);
      ElementsGrow(s, n);
      assert s[..n + 1] == s;
      assert s[n] !in s[..n];
    }
  }

  // ---- expired records ----

  /** The raw keys of distinct expired records, and whose they are. */
  ghost predicate AllExpired(d: map<Pair, Decision>, cutoff: Int64, keys: seq<Str>, pairs: seq<Pair>) {
    && |keys| == |pairs| && Distinct(pairs)
    && forall i :: 0 <= i < |pairs| ==> ExpiredAt(d, cutoff, keys[i], pairs[i])
  }

  ghost predicate ExpiredAt(d: map<Pair, Decision>, cutoff: Int64, key: Str, k: Pair) {
    k in d && d[k].expiresAt <= cutoff && PairFits(k) && key == PairKey(k)
  }

  lemma OneMore(d: map<Pair, Decision>, cutoff: Int64, keys: seq<Str>, pairs: seq<Pair>, key: Str, k: Pair)
    requires AllExpired(d, cutoff, keys, pairs) && ExpiredAt(d, cutoff, key, k) && key !in keys
    ensures AllExpired(d, cutoff, keys + [key], pairs + [k])
  {
    forall i | 0 <= i < |pairs| ensures pairs[i] != k { assert ExpiredAt(d, cutoff, keys[i], pairs[i]); }
  }

  /** Collect the keys of the expired records. */
  method CollectExpired(tx: StateTx, cutoff: Int64) returns (keys: seq<Str>, ghost pairs: seq<Pair>)
    requires tx.Valid()
    ensures AllExpired(tx.S.decisions, cutoff, keys, pairs)
    ensures Elements(pairs) == tx.S.decisions.Keys - SM.Live(tx.S.decisions, cutoff)
  {
    var records := tx.ForEachIdempotency();
    keys, pairs := [], [];
    for i := 0 to |records|
      invariant AllExpired(tx.S.decisions, cutoff, keys, pairs)
      invariant forall j :: 0 <= j < i && records[j].1.expiresAt <= cutoff ==> records[j].0 in keys
      invariant forall j :: i <= j < |records| ==> records[j].0 !in keys
    {
      assert records[i] in records;
      if records[i].1.expiresAt <= cutoff {
        ghost var k := PairOfKey(tx.idempotency, tx.S.decisions, records[i].0);
        OneMore(tx.S.decisions, cutoff, keys, pairs, records[i].0, k);
        keys := keys + [records[i].0];
        pairs := pairs + [k];
      }
    }
    forall k | k in tx.S.decisions && tx.S.decisions[k].expiresAt <= cutoff ensures k in pairs {
      assert Under(tx.idempotency, tx.S.decisions, k);
      var j :| 0 <= j < |records| && records[j] == (PairKey(k), tx.S.decisions[k]);
      var i :| 0 <= i < |keys| && keys[i] == records[j].0;
      assert ExpiredAt(tx.S.decisions, cutoff, keys[i], pairs[i]);
      PairKeyInjective(pairs[i], k);
    }
    forall k | k in pairs ensures k in tx.S.decisions && tx.S.decisions[k].expiresAt <= cutoff {
      var i :| 0 <= i < |pairs| && pairs[i] == k;
      assert ExpiredAt(tx.S.decisions, cutoff, keys[i], pairs[i]);
    }
  }

  /** Expired records are collected, then deleted. */
  method DropExpired(tx: StateTx, cutoff: Int64) returns (n: nat)
    requires tx.Valid()
    modifies tx`idempotency, tx`S
    ensures tx.Valid() && n == |old(tx.S).decisions.Keys - SM.Live(old(tx.S).decisions, cutoff)|
    ensures var d := old(tx.S).decisions; tx.S == old(tx.S).(decisions := map k | k in SM.Live(d, cutoff) :: d[k])
  {
    ghost var d := tx.S.decisions;
    var keys, pairs := CollectExpired(tx, cutoff);
    for i := 0 to |keys|
      invariant tx.Valid() && tx.S == old(tx.S).(decisions := d - Elements(pairs[..i]))
    {
      ElementsGrow(pairs, i);
      assert ExpiredAt(d, cutoff, keys[i], pairs[i]);
      assert d - Elements(pairs[..i]) - {pairs[i]} == d - (Elements(pairs[..i]) + {pairs[i]});
      tx.DeleteIdempotency(keys[i], pairs[i]);
    }
    assert pairs[..|keys|] == pairs;
    DistinctSize(pairs);
    LeftAreLive(d, cutoff);
    n := |keys|;
  }

  lemma LeftAreLive(d: map<Pair, Decision>, cutoff: Int64)
    ensures d - (d.Keys - SM.Live(d, cutoff)) == map k | k in SM.Live(d, cutoff) :: d[k]
  {
  }

  // ---- old audits ----

  /** Position of an index among all of them decides whether it is kept. */
  lemma NewerCount(a: map<nat, Audit>, idx: seq<nat>, j: nat)
    requires ListsAudits(a, idx) && j < |idx|
    ensures |SM.Newer(a, idx[j])| == |idx| - 1 - j
  {
    var hi := j + 1;
    var later := idx[hi..];
    DistinctSize(later);
    forall x | x in SM.Newer(a, idx[j]) ensures x in Elements(later) {
      var i :| 0 <= i < |idx| && idx[i] == x;
      assert later[i - hi] == x;
    }
    forall x | x in Elements(later) ensures x in SM.Newer(a, idx[j]) {
      var i :| 0 <= i < |later| && later[i] == x;
      assert x == idx[hi + i] && x in idx;
    }
    assert SM.Newer(a, idx[j]) == Elements(later);
  }

  /** Dropping all but the last `keep` of the ascending indexes leaves the newest. */
  lemma DroppedAreOld(a: map<nat, Audit>, idx: seq<nat>, keep: nat, cut: nat)
    requires ListsAudits(a, idx) && cut == if |idx| > keep then |idx| - keep else 0
    ensures Elements(idx[..cut]) == a.Keys - SM.Newest(a, keep) && |a.Keys - SM.Newest(a, keep)| == cut
  {
    DistinctSize(idx[..cut]);
    forall x | x in a.Keys - SM.Newest(a, keep) ensures x in Elements(idx[..cut]) {
      var j :| 0 <= j < |idx| && idx[j] == x;
      NewerCount(a, idx, j);
      assert idx[..cut][j] == x;
    }
    forall x | x in Elements(idx[..cut]) ensures x in a.Keys - SM.Newest(a, keep) {
      var j :| 0 <= j < cut && idx[..cut][j] == x;
      NewerCount(a, idx, j);
      assert x == idx[j] && x in idx;
    }
  }

  lemma FewerAbove(a: map<nat, Audit>, i: nat, j: nat)
    requires i <= j
    ensures |SM.Newer(a, j)| <= |SM.Newer(a, i)|
  {
    var newer, rest := SM.Newer(a, j), SM.Newer(a, i) - SM.Newer(a, j);
    assert SM.Newer(a, i) == newer + rest;
  }

  /** Every audit kept is newer than every audit dropped. */
  lemma KeptAreNewer(a: map<nat, Audit>, keep: nat, i: nat, j: nat)
    requires i in SM.Newest(a, keep) && j in a && j !in SM.Newest(a, keep)
    ensures j < i
  {
    if i <= j { FewerAbove(a, i, j); }
  }

  lemma LeftAreNewest(a: map<nat, Audit>, keep: nat)
    ensures a - (a.Keys - SM.Newest(a, keep)) == map i | i in SM.Newest(a, keep) :: a[i]
  {
  }

  method DeleteAudits(tx: StateTx, idx: seq<nat>)
    requires tx.Valid() && forall i :: 0 <= i < |idx| ==> idx[i] < U64_LIMIT
    modifies tx`audits, tx`S
    ensures tx.Valid() && tx.S == old(tx.S).(audits := old(tx.S).audits - Elements(idx))
  {
    ghost var a := tx.S.audits;
    for i := 0 to |idx|
      invariant tx.Valid() && tx.S == old(tx.S).(audits := a - Elements(idx[..i]))
    {
      ElementsGrow(idx, i);
      assert a - Elements(idx[..i]) - {idx[i]} == a - (Elements(idx[..i]) + {idx[i]});
      tx.DeleteAudit(idx[i]);
    }
    assert idx[..|idx|] == idx;
  }

  lemma IndexesAreSmall(tx: StateTx, idx: seq<nat>)
    requires tx.Valid() && ListsAudits(tx.S.audits, idx)
    ensures forall i :: 0 <= i < |idx| ==> idx[i] < U64_LIMIT
  {
    forall i | 0 <= i < |idx| ensures idx[i] < U64_LIMIT {
      assert idx[i] in idx;
      assert AuditUnder(tx.audits, tx.S.audits, idx[i]);
    }
  }

  /** All audited indexes are listed, and the oldest beyond `keep` deleted. */
  method TrimAudits(tx: StateTx, keep: nat) returns (removed: nat)
    requires tx.Valid()
    modifies tx`audits, tx`S
    ensures tx.Valid() && removed == |old(tx.S).audits.Keys - SM.Newest(old(tx.S).audits, keep)|
    ensures var a := old(tx.S).audits; tx.S == old(tx.S).(audits := map i | i in SM.Newest(a, keep) :: a[i])
  {
    var idx := tx.ForEachAudit();
    removed := 0;
    if |idx| > keep { removed := |idx| - keep; }
    IndexesAreSmall(tx, idx);
    DroppedAreOld(tx.S.audits, idx, keep, removed);
    LeftAreNewest(tx.S.audits, keep);
    DeleteAudits(tx, idx[..removed]);
  }
}
