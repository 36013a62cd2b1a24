/**
  The application buckets as the database holds them: policies, clients and key
  prefixes under their ids, token buckets and decision records under composite
  keys, audits under big-endian log indexes.  One object is one open transaction.

  Seen from outside the object is an `AppState`; every method says what it does to
  that value.
 */
module StateStore {
  import opened Models
  import opened Encoding
  import opened Cursor

  // ---- pairs under composite keys ----

  type Pair = (Str, Str)

  predicate PairFits(k: Pair) { |k.0| <= MAX_KEY_PART && |k.1| <= MAX_KEY_PART }

  function PairKey(k: Pair): Str
    requires PairFits(k)
  {
    Composite([k.0, k.1])
  }

  lemma PairKeyInjective(a: Pair, b: Pair)
    requires PairFits(a) && PairFits(b) && PairKey(a) == PairKey(b)
    ensures a == b
  {
    CompositeInjective([a.0, a.1], [b.0, b.1]);
    assert [a.0, a.1][0] == [b.0, b.1][0] && [a.0, a.1][1] == [b.0, b.1][1];
  }

  ghost predicate Under<V(!new)>(m: map<Str, V>, a: map<Pair, V>, k: Pair) {
    k in a ==> PairFits(k) && PairKey(k) in m && m[PairKey(k)] == a[k]
  }

  ghost predicate KeyOfPair<V(!new)>(m: map<Str, V>, a: map<Pair, V>, x: Str) {
    x in m ==> exists k :: k in a && PairFits(k) && x == PairKey(k)
  }

  /** The byte-keyed map holds exactly the pairs of `a`. */
  ghost predicate PairKeyed<V(!new)>(m: map<Str, V>, a: map<Pair, V>) {
    && (forall k {:trigger Under(m, a, k)} :: Under(m, a, k))
    && (forall x {:trigger KeyOfPair(m, a, x)} :: KeyOfPair(m, a, x))
  }

  lemma PairOfKey<V(!new)>(m: map<Str, V>, a: map<Pair, V>, x: Str) returns (k: Pair)
    requires PairKeyed(m, a) && x in m
    ensures k in a && PairFits(k) && x == PairKey(k) && m[x] == a[k]
    ensures Split(x) == Some([k.0, k.1])
  {
    assert KeyOfPair(m, a, x);
    k :| k in a && PairFits(k) && x == PairKey(k);
    assert Under(m, a, k);
    SplitOfComposite([k.0, k.1]);
  }

  lemma PairLookup<V(!new)>(m: map<Str, V>, a: map<Pair, V>, k: Pair)
    requires PairKeyed(m, a) && PairFits(k)
    ensures PairKey(k) in m <==> k in a
    ensures k in a ==> m[PairKey(k)] == a[k]
  {
    assert Under(m, a, k);
    if PairKey(k) in m {
      var j := PairOfKey(m, a, PairKey(k));
      PairKeyInjective(j, k);
    }
  }

  lemma PairPut<V(!new)>(m: map<Str, V>, a: map<Pair, V>, k: Pair, v: V)
    requires PairKeyed(m, a) && PairFits(k)
    ensures PairKeyed(m[PairKey(k) := v], a[k := v])
  {
    var m', a' := m[PairKey(k) := v], a[k := v];
    forall j ensures Under(m', a', j) {
      assert Under(m, a, j);
      if j in a && PairKey(j) == PairKey(k) { PairKeyInjective(j, k); }
    }
    forall x ensures KeyOfPair(m', a', x) { assert KeyOfPair(m, a, x); }
  }

  lemma PairDelete<V(!new)>(m: map<Str, V>, a: map<Pair, V>, k: Pair)
    requires PairKeyed(m, a) && PairFits(k)
    ensures PairKeyed(m - {PairKey(k)}, a - {k})
  {
    var m', a' := m - {PairKey(k)}, a - {k};
    forall j ensures Under(m', a', j) {
      assert Under(m, a, j);
      if j in a && PairKey(j) == PairKey(k) { PairKeyInjective(j, k); }
    }
    forall x ensures KeyOfPair(m', a', x) {
      assert KeyOfPair(m, a, x);
      if x in m' {
        var j :| j in a && PairFits(j) && x == PairKey(j);
        assert j in a';
      }
    }
  }

  // ---- audits under log indexes ----

  ghost predicate AuditUnder(m: map<Str, Audit>, a: map<nat, Audit>, i: nat) {
    i in a ==> i < U64_LIMIT && U64(i) in m && m[U64(i)] == a[i]
  }

  ghost predicate KeyOfAudit(m: map<Str, Audit>, a: map<nat, Audit>, x: Str) {
    x in m ==> |x| == 8 && ParseU64(x) in a
  }

  ghost predicate AuditKeyed(m: map<Str, Audit>, a: map<nat, Audit>) {
    && (forall i {:trigger AuditUnder(m, a, i)} :: AuditUnder(m, a, i))
    && (forall x {:trigger KeyOfAudit(m, a, x)} :: KeyOfAudit(m, a, x))
  }

  lemma AuditPut(m: map<Str, Audit>, a: map<nat, Audit>, i: nat, v: Audit)
    requires AuditKeyed(m, a) && i < U64_LIMIT
    ensures AuditKeyed(m[U64(i) := v], a[i := v])
  {
    var m', a' := m[U64(i) := v], a[i := v];
    forall j ensures AuditUnder(m', a', j) {
      assert AuditUnder(m, a, j);
      if j in a { U64Order(i, j); }
    }
    forall x ensures KeyOfAudit(m', a', x) {
      assert KeyOfAudit(m, a, x);
      ParseOfU64(i);
    }
  }

  lemma AuditDelete(m: map<Str, Audit>, a: map<nat, Audit>, i: nat)
    requires AuditKeyed(m, a) && i < U64_LIMIT
    ensures AuditKeyed(m - {U64(i)}, a - {i})
  {
    var m', a' := m - {U64(i)}, a - {i};
    forall j ensures AuditUnder(m', a', j) {
      assert AuditUnder(m, a, j);
      if j in a { U64Order(i, j); }
    }
    forall x ensures KeyOfAudit(m', a', x) {
      assert KeyOfAudit(m, a, x);
      if x in m && ParseU64(x) == i { U64OfParse(x); }
    }
  }

  // ---- the transaction ----

  class StateTx {
    var policies: map<Str, Policy>
    var clients: map<Str, Client>
    var prefixes: map<Str, Str>
    var tokenBuckets: map<Str, Bucket>
    var idempotency: map<Str, Decision>
    var audits: map<Str, Audit>
    var lastApplied: nat

    /** The same, as a value. */
    ghost var S: AppState

    ghost predicate Valid()
      reads this
    {
      && policies == S.policies && clients == S.clients && prefixes == S.prefixes
      && PairKeyed(tokenBuckets, S.buckets)
      && PairKeyed(idempotency, S.decisions)
      && AuditKeyed(audits, S.audits)
    }

    constructor ()
      ensures Valid() && S == EMPTY_STATE && lastApplied == 0
    {
      policies, clients, prefixes, tokenBuckets, idempotency, audits := map[], map[], map[], map[], map[], map[];
      lastApplied := 0;
      S := EMPTY_STATE;
    }

    method PutPolicy(p: Policy)
      requires Valid()
      modifies `policies, `S
      ensures Valid() && S == old(S).(policies := old(S).policies[p.id := p])
    {
      policies := policies[p.id := p];
      S := S.(policies := policies);
    }

    method PutClient(cl: Client)
      requires Valid()
      modifies `clients, `S
      ensures Valid() && S == old(S).(clients := old(S).clients[cl.id := cl])
    {
      clients := clients[cl.id := cl];
      S := S.(clients := clients);
    }

    method PutClientPrefix(prefix: Str, id: Str)
      requires Valid()
      modifies `prefixes, `S
      ensures Valid() && S == old(S).(prefixes := old(S).prefixes[prefix := id])
    {
      prefixes := prefixes[prefix := id];
      S := S.(prefixes := prefixes);
    }

    /** The bucket if there is one; outer None when the key cannot be built. */
    method GetTokenBucket(policyId: Str, subject: Str) returns (found: Option<Option<Bucket>>)
      requires Valid()
      ensures var k := (policyId, subject);
              found == if !PairFits(k) then None else if k in S.buckets then Some(Some(S.buckets[k])) else Some(None)
    {
      var key := CompositeKey([policyId, subject]);
      FitsPair(policyId, subject);
      if key.None? { return None; }
      PairLookup(tokenBuckets, S.buckets, (policyId, subject));
      return Some(if key.value in tokenBuckets then Some(tokenBuckets[key.value]) else None);
    }

    method PutTokenBucket(b: Bucket) returns (ok: bool)
      requires Valid()
      modifies `tokenBuckets, `S
      ensures Valid() && ok == PairFits((b.policyId, b.subject))
      ensures S == if ok then old(S).(buckets := old(S).buckets[(b.policyId, b.subject) := b]) else old(S)
    {
      var key := CompositeKey([b.policyId, b.subject]);
      FitsPair(b.policyId, b.subject);
      if key.None? { return false; }
      PairPut(tokenBuckets, S.buckets, (b.policyId, b.subject), b);
      tokenBuckets := tokenBuckets[key.value := b];
      S := S.(buckets := S.buckets[(b.policyId, b.subject) := b]);
      return true;
    }

    method GetIdempotency(clientId: Str, requestId: Str) returns (found: Option<Option<Decision>>)
      requires Valid()
      ensures var k := (clientId, requestId);
              found == if !PairFits(k) then None
                       else if k in S.decisions then Some(Some(S.decisions[k])) else Some(None)
    {
      var key := CompositeKey([clientId, requestId]);
      FitsPair(clientId, requestId);
      if key.None? { return None; }
      PairLookup(idempotency, S.decisions, (clientId, requestId));
      return Some(if key.value in idempotency then Some(idempotency[key.value]) else None);
    }

    method PutIdempotency(clientId: Str, requestId: Str, d: Decision) returns (ok: bool)
      requires Valid()
      modifies `idempotency, `S
      ensures Valid() && ok == PairFits((clientId, requestId))
      ensures S == if ok then old(S).(decisions := old(S).decisions[(clientId, requestId) := d]) else old(S)
    {
      var key := CompositeKey([clientId, requestId]);
      FitsPair(clientId, requestId);
      if key.None? { return false; }
      PairPut(idempotency, S.decisions, (clientId, requestId), d);
      idempotency := idempotency[key.value := d];
      S := S.(decisions := S.decisions[(clientId, requestId) := d]);
      return true;
    }

    method PutAudit(index: nat, a: Audit)
      requires Valid() && index < U64_LIMIT
      modifies `audits, `S
      ensures Valid() && S == old(S).(audits := old(S).audits[index := a])
    {
      AuditPut(audits, S.audits, index, a);
      audits := audits[U64(index) := a];
      S := S.(audits := S.audits[index := a]);
    }

    /** One policy's buckets: seek to the policy's prefix, and go on while keys have it.
        Every bucket of the policy is visited, once, and no other. */
    method ForEachTokenBucketByPolicy(policyId: Str) returns (out: Option<seq<(Str, Bucket)>>)
      requires Valid()
      ensures out.None? <==> |policyId| > MAX_KEY_PART
      ensures out.Some? ==> ListsPolicy(S.buckets, policyId, out.value)
    {
      var prefix := CompositeKey([policyId]);
      assert [policyId][0] == policyId;
      if prefix.None? { return None; }
      var found: seq<(Str, Bucket)> := [];
      var k := Seek(tokenBuckets.Keys, prefix.value);
      ScanStarts(tokenBuckets, S.buckets, policyId, k);
      while k.Some? && prefix.value <= k.value
        invariant k.Some? ==> k.value in tokenBuckets && AtMost(prefix.value, k.value)
        invariant Scanned(tokenBuckets, S.buckets, policyId, k, found)
        decreases Remaining(tokenBuckets.Keys, k)
      {
        var parts := SplitCompositeKey(k.value);
        var next := Next(tokenBuckets.Keys, k.value);
        NextShrinks(tokenBuckets.Keys, k.value, next);
        ScanSteps(tokenBuckets, S.buckets, policyId, k.value, next, found);
        if parts.None? { return None; }
        if |parts.value| == 2 && parts.value[0] == policyId {
          found := found + [(parts.value[1], tokenBuckets[k.value])];
        }
        if next.Some? && prefix.value != k.value { LessTransitive(prefix.value, k.value, next.value); }
        k := next;
      }
      ScanEnds(tokenBuckets, S.buckets, policyId, k, found);
      return Some(found);
    }

    /** Every record with its raw key, in key order. */
    method ForEachIdempotency() returns (out: seq<(Str, Decision)>)
      requires Valid()
      ensures forall x :: x in out ==> x.0 in idempotency && idempotency[x.0] == x.1
      ensures forall key :: key in idempotency ==> (key, idempotency[key]) in out
      ensures forall i, j :: 0 <= i < j < |out| ==> out[i].0 != out[j].0
    {
      var ks := AllKeys(idempotency.Keys);
      out := [];
      for i := 0 to |ks|
        invariant |out| == i && forall j :: 0 <= j < i ==> out[j] == (ks[j], idempotency[ks[j]])
      {
        assert ks[i] in idempotency.Keys;
        out := out + [(ks[i], idempotency[ks[i]])];
      }
      forall key | key in idempotency ensures (key, idempotency[key]) in out {
        var j :| 0 <= j < |ks| && ks[j] == key;
        assert out[j] == (key, idempotency[key]);
      }
      forall i, j | 0 <= i < j < |out| ensures out[i].0 != out[j].0 { LessTotal(ks[i], ks[j]); }
    }

    /** Remove a record by its raw key, which is the key of k. */
    method DeleteIdempotency(key: Str, ghost k: Pair)
      requires Valid() && PairFits(k) && key == PairKey(k)
      modifies `idempotency, `S
      ensures Valid() && S == old(S).(decisions := old(S).decisions - {k}) && idempotency == old(idempotency) - {key}
    {
      PairDelete(idempotency, S.decisions, k);
      idempotency := idempotency - {key};
      S := S.(decisions := S.decisions - {k});
    }

    /** Every audited log index, in ascending order. */
    method ForEachAudit() returns (out: seq<nat>)
      requires Valid()
      ensures ListsAudits(S.audits, out)
    {
      var ks := AllKeys(audits.Keys);
      out := [];
      for i := 0 to |ks|
        invariant |out| == i && forall j :: 0 <= j < i ==> out[j] == ParseU64(ks[j])
      {
        out := out + [ParseU64(ks[i])];
      }
      forall x ensures x in out <==> x in S.audits { AuditListed(audits, S.audits, ks, out, x); }
      forall i, j | 0 <= i < j < |out| ensures out[i] < out[j] {
        assert KeyOfAudit(audits, S.audits, ks[i]) && KeyOfAudit(audits, S.audits, ks[j]);
        OrderIsNumeric(ks[i], ks[j]);
      }
    }

    method DeleteAudit(index: nat)
      requires Valid() && index < U64_LIMIT
      modifies `audits, `S
      ensures Valid() && S == old(S).(audits := old(S).audits - {index})
    {
      AuditDelete(audits, S.audits, index);
      audits := audits - {U64(index)};
      S := S.(audits := S.audits - {index});
    }
  }

  ghost predicate Rising(idx: seq<nat>) {
    forall i, j :: 0 <= i < j < |idx| ==> idx[i] < idx[j]
  }

  /** All the audited indexes, in ascending order. */
  ghost predicate ListsAudits(a: map<nat, Audit>, idx: seq<nat>) {
    Rising(idx) && forall x :: x in idx <==> x in a
  }

  lemma AuditListed(m: map<Str, Audit>, a: map<nat, Audit>, ks: seq<Str>, out: seq<nat>, x: nat)
    requires AuditKeyed(m, a) && (forall k :: k in ks <==> k in m)
    requires |out| == |ks| && forall j :: 0 <= j < |ks| ==> out[j] == ParseU64(ks[j])
    ensures x in out <==> x in a
  {
    if x in out {
      var j :| 0 <= j < |out| && out[j] == x;
      assert ks[j] in m;
      assert KeyOfAudit(m, a, ks[j]);
    }
    if x in a {
      assert AuditUnder(m, a, x);
      assert U64(x) in ks;
      var j :| 0 <= j < |ks| && ks[j] == U64(x);
      ParseOfU64(x);
      assert out[j] == x;
    }
  }

  // ---- the prefix scan ----

  /** Each of the policy's buckets once, under its subject. */
  ghost predicate ListsPolicy(a: map<Pair, Bucket>, id: Str, found: seq<(Str, Bucket)>) {
    && (forall i :: 0 <= i < |found| ==> Listed(a, id, found[i]))
    && (forall s :: (id, s) in a ==> Mentions(found, s))
    && (forall i, j :: 0 <= i < j < |found| ==> found[i].0 != found[j].0)
  }

  ghost predicate Listed(a: map<Pair, Bucket>, id: Str, x: (Str, Bucket)) { (id, x.0) in a && a[(id, x.0)] == x.1 }

  ghost predicate Mentions(found: seq<(Str, Bucket)>, s: Str) { exists i :: 0 <= i < |found| && found[i].0 == s }

  /** A subject's key lies ahead of the cursor, or has been found. */
  ghost predicate Accounted(m: map<Str, Bucket>, k: Option<Str>, id: Str, found: seq<(Str, Bucket)>, s: Str) {
    PairFits((id, s)) ==>
      (PairKey((id, s)) in m ==> (PairKey((id, s)) in Remaining(m.Keys, k) <==> !Mentions(found, s)))
  }

  ghost predicate Scanned(
    m: map<Str, Bucket>, a: map<Pair, Bucket>, id: Str, k: Option<Str>, found: seq<(Str, Bucket)>) {
    && (forall i :: 0 <= i < |found| ==> Listed(a, id, found[i]))
    && (forall s {:trigger Accounted(m, k, id, found, s)} :: Accounted(m, k, id, found, s))
    && (forall i, j :: 0 <= i < j < |found| ==> found[i].0 != found[j].0)
  }

  lemma ScanStarts(m: map<Str, Bucket>, a: map<Pair, Bucket>, id: Str, k: Option<Str>)
    requires Fits([id]) && IsFirstFrom(m.Keys, Composite([id]), k)
    ensures Scanned(m, a, id, k, [])
  {
    forall s ensures Accounted(m, k, id, [], s) {
      if PairFits((id, s)) {
        FitsPair(id, s);
        FirstPartIsPrefix(id, id, s);
        PrefixRange(Composite([id]), PairKey((id, s)), []);
      }
    }
  }

  lemma ScanSteps(
    m: map<Str, Bucket>, a: map<Pair, Bucket>, id: Str, x: Str, next: Option<Str>, found: seq<(Str, Bucket)>)
    requires PairKeyed(m, a) && Fits([id]) && Scanned(m, a, id, Some(x), found)
    requires x in m && Composite([id]) <= x && IsFirstAfter(m.Keys, x, next)
    ensures Split(x).Some? && |Split(x).value| == 2 && Split(x).value[0] == id
    ensures Scanned(m, a, id, next, found + [(Split(x).value[1], m[x])])
  {
    var k := PairOfKey(m, a, x);
    FitsPair(k.0, k.1);
    FirstPartIsPrefix(id, k.0, k.1);
    NextShrinks(m.Keys, x, next);
    assert Accounted(m, Some(x), id, found, k.1);
    var more := found + [(k.1, m[x])];
    forall s ensures Accounted(m, next, id, more, s) {
      assert Accounted(m, Some(x), id, found, s);
      assert Mentions(more, s) <==> Mentions(found, s) || s == k.1 by {
        if Mentions(found, s) { var i :| 0 <= i < |found| && found[i].0 == s; assert more[i].0 == s; }
        if s == k.1 { assert more[|found|].0 == s; }
      }
      if PairFits((id, s)) && PairKey((id, s)) == x { PairKeyInjective((id, s), k); }
    }
  }

  lemma ScanEnds(m: map<Str, Bucket>, a: map<Pair, Bucket>, id: Str, k: Option<Str>, found: seq<(Str, Bucket)>)
    requires PairKeyed(m, a) && Fits([id]) && Scanned(m, a, id, k, found)
    requires k.Some? ==> AtMost(Composite([id]), k.value) && !(Composite([id]) <= k.value)
    ensures ListsPolicy(a, id, found)
  {
    forall s | (id, s) in a ensures Mentions(found, s) {
      assert Under(m, a, (id, s));
      assert Accounted(m, k, id, found, s);
      if k.Some? {
        var x := PairKey((id, s));
        FitsPair(id, s);
        FirstPartIsPrefix(id, id, s);
        PrefixRange(Composite([id]), x, k.value);
        LessTotal(x, k.value);
      }
    }
  }

  lemma FitsPair(a: Str, b: Str)
    ensures Fits([a, b]) <==> PairFits((a, b))
  {
    assert [a, b][0] == a && [a, b][1] == b;
  }
}
