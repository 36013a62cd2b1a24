/**
  The persistent side of one member: term and vote, checkpoints, the application
  state, and the replicated log in a bucket keyed by big-endian index.  Every
  method is one transaction: it works on a copy and commits with one assignment.

  As long as entries are appended where the log ends, the bucket is a sequence:
  reading, ranging, truncating and overwriting by key do to it what indexing,
  slicing, cutting and appending do to the sequence.
 */
module RaftStore {
  import opened Models
  import opened Encoding
  import opened Cursor

  type LogBucket = map<Str, LogEntry>

  // ---- the bucket as a sequence ----

  ghost predicate Stored(m: LogBucket, log: seq<LogEntry>, i: nat)
    requires i < |log| <= U64_LIMIT
  {
    U64(i) in m && m[U64(i)] == log[i]
  }

  ghost predicate KeyInLog(log: seq<LogEntry>, k: Str) {
    |k| == 8 && ParseU64(k) < |log|
  }

  /** The bucket holds exactly `log`, each entry under its index. */
  ghost predicate LogKeyed(m: LogBucket, log: seq<LogEntry>) {
    && 1 <= |log| <= U64_LIMIT
    && (forall i {:trigger Stored(m, log, i)} :: 0 <= i < |log| ==> Stored(m, log, i))
    && (forall k {:trigger KeyInLog(log, k)} :: k in m ==> KeyInLog(log, k))
  }

  lemma KeyOfIndex(m: LogBucket, log: seq<LogEntry>, i: nat)
    requires LogKeyed(m, log) && i < U64_LIMIT
    ensures U64(i) in m <==> i < |log|
    ensures i < |log| ==> m[U64(i)] == log[i]
  {
    ParseOfU64(i);
    if U64(i) in m { assert KeyInLog(log, U64(i)); }
    if i < |log| { assert Stored(m, log, i); }
  }

  lemma IndexOfKey(m: LogBucket, log: seq<LogEntry>, k: Str)
    requires LogKeyed(m, log) && k in m
    ensures ParseU64(k) < |log| && k == U64(ParseU64(k)) && m[k] == log[ParseU64(k)]
  {
    assert KeyInLog(log, k);
    U64OfParse(k);
    assert Stored(m, log, ParseU64(k));
  }

  /** A bucket holds at most one sequence. */
  lemma OneLog(m: LogBucket, a: seq<LogEntry>, b: seq<LogEntry>)
    requires LogKeyed(m, a) && LogKeyed(m, b)
    ensures a == b
  {
    assert |a| == |b| by {
      KeyOfIndex(m, a, |b| - 1);
      KeyOfIndex(m, b, |b| - 1);
      KeyOfIndex(m, a, |a| - 1);
      KeyOfIndex(m, b, |a| - 1);
    }
    forall i | 0 <= i < |a| ensures a[i] == b[i] { assert Stored(m, a, i) && Stored(m, b, i); }
  }

  ghost predicate IndexesFit(es: seq<LogEntry>) {
    forall i :: 0 <= i < |es| ==> es[i].index < U64_LIMIT
  }

  /** Every entry put under its own index, in order; existing ones are overwritten. */
  function PutAll(m: LogBucket, es: seq<LogEntry>): LogBucket
    requires IndexesFit(es)
  {
    if |es| == 0 then m else PutAll(m, es[..|es| - 1])[U64(es[|es| - 1].index) := es[|es| - 1]]
  }

  /** Everything before index `from`. */
  function Below(m: LogBucket, from: nat): LogBucket
    requires from < U64_LIMIT
  {
    map k | k in m && Less(k, U64(from)) :: m[k]
  }

  /** Entries that continue a log of length n. */
  ghost predicate Continue(es: seq<LogEntry>, n: nat) {
    n + |es| <= U64_LIMIT && forall i :: 0 <= i < |es| ==> es[i].index == n + i
  }

  lemma PutOne(m: LogBucket, log: seq<LogEntry>, e: LogEntry)
    requires LogKeyed(m, log) && e.index == |log| < U64_LIMIT
    ensures LogKeyed(m[U64(e.index) := e], log + [e])
  {
    var m', log' := m[U64(e.index) := e], log + [e];
    forall i | 0 <= i < |log'| ensures Stored(m', log', i) {
      U64Order(i, |log|);
      if i < |log| { assert Stored(m, log, i); }
    }
    forall k | k in m' ensures KeyInLog(log', k) {
      ParseOfU64(|log|);
      assert k in m ==> KeyInLog(log, k);
    }
  }

  /** Putting entries that continue the log appends them, */
  lemma {:induction false} PutAppends(m: LogBucket, log: seq<LogEntry>, es: seq<LogEntry>)
    requires LogKeyed(m, log) && Continue(es, |log|)
    ensures IndexesFit(es) && LogKeyed(PutAll(m, es), log + es)
  {
    if |es| == 0 {
      assert log + es == log;
    } else {
      var rest, e := es[..|es| - 1], es[|es| - 1];
      PutAppends(m, log, rest);
      PutOne(PutAll(m, rest), log + rest, e);
      assert log + es == log + rest + [e];
    }
  }

  /** and deleting from an index on cuts the sequence there. */
  lemma BelowCuts(m: LogBucket, log: seq<LogEntry>, from: nat)
    requires LogKeyed(m, log) && 1 <= from <= |log| && from < U64_LIMIT
    ensures LogKeyed(Below(m, from), log[..from])
  {
    var m', log' := Below(m, from), log[..from];
    forall i | 0 <= i < |log'| ensures Stored(m', log', i) {
      assert Stored(m, log, i);
      U64Order(i, from);
    }
    forall k | k in m' ensures KeyInLog(log', k) {
      IndexOfKey(m, log, k);
      assert KeyInLog(log, k);
      U64Order(ParseU64(k), from);
    }
  }

  // ---- the cursor on the sequence ----

  lemma SeekAt(m: LogBucket, log: seq<LogEntry>, i: nat, k: Option<Str>)
    requires LogKeyed(m, log) && i < U64_LIMIT && IsFirstFrom(m.Keys, U64(i), k)
    ensures k == if i < |log| then Some(U64(i)) else None
  {
    KeyOfIndex(m, log, i);
    if k.Some? {
      IndexOfKey(m, log, k.value);
      U64Order(i, ParseU64(k.value));
      LessTotal(k.value, U64(i));
    }
  }

  lemma NextAt(m: LogBucket, log: seq<LogEntry>, i: nat, k: Option<Str>)
    requires LogKeyed(m, log) && i < |log| && IsFirstAfter(m.Keys, U64(i), k)
    ensures k == if i + 1 < |log| then Some(U64(i + 1)) else None
  {
    if i + 1 < |log| {
      KeyOfIndex(m, log, i + 1);
      U64Order(i, i + 1);
    }
    if k.Some? {
      IndexOfKey(m, log, k.value);
      U64Order(i, ParseU64(k.value));
      if i + 1 < |log| {
        U64Order(i + 1, ParseU64(k.value));
        LessTotal(k.value, U64(i + 1));
      }
    }
  }

  lemma LastAt(m: LogBucket, log: seq<LogEntry>, k: Option<Str>)
    requires LogKeyed(m, log) && IsLast(m.Keys, k)
    ensures k == Some(U64(|log| - 1)) && ParseU64(U64(|log| - 1)) == |log| - 1
  {
    KeyOfIndex(m, log, |log| - 1);
    ParseOfU64(|log| - 1);
    IndexOfKey(m, log, k.value);
    U64Order(|log| - 1, ParseU64(k.value));
    LessTotal(k.value, U64(|log| - 1));
  }

  /** Entries lo to hi of a log, as far as it goes. */
  function Range(log: seq<LogEntry>, lo: nat, hi: nat): seq<LogEntry> {
    if hi < lo || lo >= |log| then [] else log[lo..if hi < |log| then hi + 1 else |log|]
  }

  lemma RangeToEnd(log: seq<LogEntry>, lo: nat)
    requires lo < |log|
    ensures Range(log, lo, |log| - 1) == log[lo..]
  {
  }

  // ---- the store ----

  /** What a store holds for consensus, as it would survive a crash. */
  datatype Image = Image(
    currentTerm: nat,
    votedFor: string,
    commitIndex: nat,
    lastApplied: nat,
    app: AppState,
    raftLog: LogBucket)

  class Store {
    var currentTerm: nat
    var votedFor: string
    var commitIndex: nat
    var lastApplied: nat
    var app: AppState
    var raftLog: LogBucket
    var clusterId: string

    /** What every committed transaction on these left, in order.  The cluster id, which is
        written once, is not part of it. */
    ghost var History: seq<Image>

    ghost function Now(): Image
      reads this
    {
      Image(currentTerm, votedFor, commitIndex, lastApplied, app, raftLog)
    }

    /** A migrated, empty store: the sentinel at index 0. */
    constructor (init: AppState)
      ensures currentTerm == 0 && votedFor == "" && commitIndex == 0 && lastApplied == 0 && app == init
      ensures LogKeyed(raftLog, [SENTINEL]) && clusterId == "" && History == []
    {
      currentTerm, votedFor, commitIndex, lastApplied, app, clusterId := 0, "", 0, 0, init, "";
      raftLog := map[U64(0) := SENTINEL];
      History := [];
      ParseOfU64(0);
    }

    method SetClusterId(id: string)
      modifies `clusterId
      ensures clusterId == id
    {
      clusterId := id;
    }

    /** Term and vote change together, so that no crash separates them. */
    method SetTermAndVote(term: nat, vote: string)
      modifies `currentTerm, `votedFor, `History
      ensures currentTerm == term && votedFor == vote && History == old(History) + [Now()]
    {
      currentTerm, votedFor := term, vote;
      History := History + [Now()];
    }

    method SetVotedFor(vote: string)
      modifies `votedFor, `History
      ensures votedFor == vote && History == old(History) + [Now()]
    {
      votedFor := vote;
      History := History + [Now()];
    }

    method SetCommitIndex(index: nat)
      modifies `commitIndex, `History
      ensures commitIndex == index && History == old(History) + [Now()]
    {
      commitIndex := index;
      History := History + [Now()];
    }

    /** An entry's effects and the applied checkpoint, in one transaction. */
    method CommitApplied(state: AppState, index: nat)
      modifies `app, `lastApplied, `History
      ensures app == state && lastApplied == index && History == old(History) + [Now()]
    {
      app, lastApplied := state, index;
      History := History + [Now()];
    }

    method AppendEntries(entries: seq<LogEntry>)
      requires IndexesFit(entries)
      modifies `raftLog, `History
      ensures raftLog == PutAll(old(raftLog), entries) && History == old(History) + [Now()]
    {
      raftLog := PutEach(raftLog, entries);
      History := History + [Now()];
    }

    static method PutEach(bucket: LogBucket, entries: seq<LogEntry>) returns (m: LogBucket)
      requires IndexesFit(entries)
      ensures m == PutAll(bucket, entries)
    {
      m := bucket;
      for i := 0 to |entries|
        invariant m == PutAll(bucket, entries[..i])
      {
        assert entries[..i + 1][..i] == entries[..i];
        m := m[U64(entries[i].index) := entries[i]];
      }
      assert entries[..|entries|] == entries;
    }

    method Entry(index: nat) returns (e: Option<LogEntry>)
      requires index < U64_LIMIT
      ensures e == if U64(index) in raftLog then Some(raftLog[U64(index)]) else None
      ensures forall log {:trigger LogKeyed(raftLog, log)} ::
                LogKeyed(raftLog, log) ==> e == if index < |log| then Some(log[index]) else None
    {
      e := if U64(index) in raftLog then Some(raftLog[U64(index)]) else None;
      forall log | LogKeyed(raftLog, log) ensures e == if index < |log| then Some(log[index]) else None {
        KeyOfIndex(raftLog, log, index);
      }
    }

    /** Everything in an index range, by moving a cursor; `log` is what the bucket holds. */
    method Entries(lo: nat, hi: nat, ghost log: seq<LogEntry>) returns (out: seq<LogEntry>)
      requires lo < U64_LIMIT && LogKeyed(raftLog, log)
      ensures out == Range(log, lo, hi)
    {
      out := [];
      if hi < lo { return; }
      var k := Seek(raftLog.Keys, U64(lo));
      SeekAt(raftLog, log, lo, k);
      ghost var i := lo;
      while k.Some?
        invariant lo <= i <= hi + 1
        invariant k == if i < |log| then Some(U64(i)) else None
        invariant if lo < |log| then i <= |log| && out == log[lo..i] else out == []
        decreases |log| - i
      {
        ParseOfU64(i);
        if ParseU64(k.value) > hi { break; }
        KeyOfIndex(raftLog, log, i);
        out := out + [raftLog[k.value]];
        k := Next(raftLog.Keys, k.value);
        NextAt(raftLog, log, i, k);
        i := i + 1;
      }
    }

    method LastIndex() returns (index: nat)
      ensures forall log {:trigger LogKeyed(raftLog, log)} :: LogKeyed(raftLog, log) ==> index == |log| - 1
    {
      var k := Last(raftLog.Keys);
      index := if k.Some? then ParseU64(k.value) else 0;
      forall log | LogKeyed(raftLog, log) ensures index == |log| - 1 { LastAt(raftLog, log, k); }
    }

    /** Collect the keys from `from` on, then delete them. */
    static method TruncateSuffix(bucket: LogBucket, from: nat) returns (m: LogBucket)
      requires from < U64_LIMIT
      ensures m == Below(bucket, from)
    {
      var keys: seq<Str> := [];
      var k := Seek(bucket.Keys, U64(from));
      while k.Some?
        invariant k.Some? ==> k.value in bucket && AtMost(U64(from), k.value)
        invariant forall x :: x in keys <==> x in bucket && AtMost(U64(from), x) && x !in Remaining(bucket.Keys, k)
        decreases Remaining(bucket.Keys, k)
      {
        var next := Next(bucket.Keys, k.value);
        NextShrinks(bucket.Keys, k.value, next);
        if next.Some? && U64(from) != k.value { LessTransitive(U64(from), k.value, next.value); }
        keys := keys + [k.value];
        k := next;
      }
      m := bucket;
      for i := 0 to |keys|
        invariant m == map x | x in bucket && x !in keys[..i] :: bucket[x]
      {
        m := m - {keys[i]};
      }
      forall x ensures x in keys <==> x in bucket && !Less(x, U64(from)) { LessTotal(x, U64(from)); }
    }

    /** Repair in one transaction: cut the conflicting suffix, if any, then append. */
    method OverwriteEntries(truncateFrom: nat, entries: seq<LogEntry>)
      requires truncateFrom < U64_LIMIT && IndexesFit(entries)
      modifies `raftLog, `History
      ensures raftLog == PutAll(if truncateFrom >= 1 then Below(old(raftLog), truncateFrom) else old(raftLog), entries)
      ensures History == old(History) + [Now()]
    {
      var m := raftLog;
      if truncateFrom >= 1 { m := TruncateSuffix(m, truncateFrom); }
      m := PutEach(m, entries);
      raftLog := m;
      History := History + [Now()];
    }
  }
}
