/**
  Idempotent retries.  Until a prune removes its record, a decided request is
  answered from the record and changes nothing, however often it is repeated;
  the same key with other content is refused.
 */
module Idempotency {
  import opened Models
  import opened Validation
  import opened StateMachine
  import opened StoreInvariant

  // ---- the digest input is injective ----

  lemma DecimalDigits(n: nat)
    ensures |Decimal(n)| >= 1 && forall i :: 0 <= i < |Decimal(n)| ==> IsDigit(Decimal(n)[i])
  {
  }

  lemma {:induction false} DecimalInjective(m: nat, n: nat)
    requires Decimal(m) == Decimal(n)
    ensures m == n
  {
    DecimalDigits(m / 10);
    DecimalDigits(n / 10);
    var a, b := Decimal(m), Decimal(n);
    assert a[|a| - 1] == 48 + m % 10 && b[|b| - 1] == 48 + n % 10;
    if m >= 10 {
      assert a[..|a| - 1] == Decimal(m / 10) && b[..|b| - 1] == Decimal(n / 10);
      DecimalInjective(m / 10, n / 10);
    }
  }

  lemma FormatInjective(x: int, y: int)
    requires FormatInt(x) == FormatInt(y)
    ensures x == y
  {
    DecimalDigits(if x < 0 then -x else x);
    DecimalDigits(if y < 0 then -y else y);
    assert FormatInt(x)[0] == FormatInt(y)[0];
    if x < 0 {
      assert FormatInt(x)[1..] == Decimal(-x) && FormatInt(y)[1..] == Decimal(-y);
      DecimalInjective(-x, -y);
    } else {
      DecimalInjective(x, y);
    }
  }

  /** A field without a newline ends at the first one. */
  lemma FieldEnds(a: Str, x: Str, b: Str, y: Str)
    requires NEWLINE !in a && NEWLINE !in b && a + [NEWLINE] + x == b + [NEWLINE] + y
    ensures a == b && x == y
  {
    var w := a + [NEWLINE] + x;
    assert w[|a|] == NEWLINE && w[|b|] == NEWLINE;
    assert |b| <= |a| by { assert forall i :: 0 <= i < |b| ==> w[i] == b[i]; }
    assert |a| <= |b| by { assert forall i :: 0 <= i < |a| ==> w[i] == a[i]; }
    assert a == w[..|a|] == b;
    assert x == w[|a| + 1..] == y;
  }

  lemma NoNewlines(policyId: Str, subject: Str)
    requires ValidPolicyId(policyId) && ValidSubject(subject)
    ensures NEWLINE !in policyId && NEWLINE !in subject
  {
  }

  /** Two validated requests have the same digest input exactly when they have the same content. */
  lemma DigestInjective(p1: Str, s1: Str, c1: Int64, p2: Str, s2: Str, c2: Int64)
    requires ValidPolicyId(p1) && ValidSubject(s1) && ValidPolicyId(p2) && ValidSubject(s2)
    ensures RequestDigest(p1, s1, c1) == RequestDigest(p2, s2, c2) <==> p1 == p2 && s1 == s2 && c1 == c2
  {
    NoNewlines(p1, s1);
    NoNewlines(p2, s2);
    var x1, x2 := s1 + [NEWLINE] + FormatInt(c1), s2 + [NEWLINE] + FormatInt(c2);
    assert RequestDigest(p1, s1, c1) == p1 + [NEWLINE] + x1 && RequestDigest(p2, s2, c2) == p2 + [NEWLINE] + x2;
    if p1 + [NEWLINE] + x1 == p2 + [NEWLINE] + x2 {
      FieldEnds(p1, x1, p2, x2);
      FieldEnds(s1, FormatInt(c1), s2, FormatInt(c2));
      FormatInjective(c1, c2);
    }
  }

  // ---- a record's life ----

  type RequestKey = (Str, Str)  // client id, request id

  predicate Asks(e: LogEntry, key: RequestKey) {
    && e.payload.Carries? && e.payload.command.body.Decide?
    && (e.payload.command.body.clientId, e.payload.command.body.requestId) == key
  }

  predicate SameContent(d: Decision, p: Body)
    requires p.Decide?
  {
    d.policyId == p.policyId && d.subject == p.subject && d.cost == p.cost
  }

  predicate IsPrune(e: LogEntry) { e.payload.Carries? && e.payload.command.body.Prune? }

  /** A prune at or after the record's expiry. */
  predicate Removes(e: LogEntry, d: Decision) { IsPrune(e) && e.payload.command.timestamp >= d.expiresAt }

  /** The state machine on one entry, at the entry's own position. */
  function Step(s: AppState, e: LogEntry): Applied { ApplyEntry(s, e.index, e.term, e) }

  /** A fresh decision is on record afterwards, under a key that was free. */
  lemma AcceptedIsRecorded(s: AppState, e: LogEntry)
    requires Step(s, e).Applied? && Step(s, e).result.Decided? && !Step(s, e).result.duplicate
    ensures var d := Step(s, e).result.decision; var key := (d.clientId, d.requestId);
            && Asks(e, key) && SameContent(d, e.payload.command.body)
            && key !in s.decisions
            && key in Step(s, e).state.decisions && Step(s, e).state.decisions[key] == d
  {
  }

  /** One entry removes a record if and only if it is a prune at or after its expiry,
      and nothing overwrites it. */
  lemma RecordStays(s: AppState, e: LogEntry, key: RequestKey)
    requires key in s.decisions && Step(s, e).Applied?
    ensures key in Step(s, e).state.decisions <==> !Removes(e, s.decisions[key])
    ensures key in Step(s, e).state.decisions ==> Step(s, e).state.decisions[key] == s.decisions[key]
  {
    if e.payload.Carries? {
      var at, cmd := Position(e.index, e.term), e.payload.command;
      if cmd.body.Decide? {
        ChargeRecords(s, at, cmd.timestamp, cmd.body, key);
      } else if cmd.body.Prune? {
        PruneRecords(s, cmd.timestamp, cmd.body, key);
      } else {
        PoliciesKeepRecords(s, at, cmd.timestamp, cmd.body);
        ClientsKeepRecords(s, at, cmd.timestamp, cmd.body);
      }
    }
  }

  lemma PoliciesKeepRecords(s: AppState, at: Position, ts: Int64, p: Body)
    ensures p.CreatePolicy? ==> ApplyCreatePolicy(s, at, ts, p).state.decisions == s.decisions
    ensures p.UpdatePolicy? ==> ApplyUpdatePolicy(s, at, ts, p).state.decisions == s.decisions
    ensures p.SetPolicyActive? ==> ApplySetPolicyActive(s, at, ts, p).state.decisions == s.decisions
  {
  }

  lemma ClientsKeepRecords(s: AppState, at: Position, ts: Int64, p: Body)
    ensures p.CreateClient? ==> ApplyCreateClient(s, at, ts, p).state.decisions == s.decisions
    ensures p.RevokeClient? ==> ApplyRevokeClient(s, at, ts, p).state.decisions == s.decisions
  {
  }

  lemma PruneRecords(s: AppState, ts: Int64, p: Body, key: RequestKey)
    requires p.Prune? && key in s.decisions
    ensures var s' := ApplyPrune(s, ts, p).state;
            && (key in s'.decisions <==> ts < s.decisions[key].expiresAt)
            && (key in s'.decisions ==> s'.decisions[key] == s.decisions[key])
  {
  }

  lemma ChargeRecords(s: AppState, at: Position, ts: Int64, p: Body, key: RequestKey)
    requires p.Decide? && key in s.decisions && ApplyDecide(s, at, ts, p).Applied?
    ensures var s' := ApplyDecide(s, at, ts, p).state; key in s'.decisions && s'.decisions[key] == s.decisions[key]
  {
  }

  /** A record survives every run without such a prune. */
  lemma {:induction false} RecordKept(s: AppState, es: seq<LogEntry>, key: RequestKey)
    requires key in s.decisions && Run(s, es).Some?
    requires forall e :: e in es ==> !Removes(e, s.decisions[key])
    ensures key in Run(s, es).value.decisions && Run(s, es).value.decisions[key] == s.decisions[key]
  {
    if |es| == 0 {
    } else {
      var rest, e := es[..|es| - 1], es[|es| - 1];
      RecordKept(s, rest, key);
      assert e in es;
      RecordStays(Run(s, rest).value, e, key);
    }
  }

  /** Asking again under a recorded key changes nothing; the original record answers
      the same content, and any other content is refused. */
  lemma RetryAnswer(s: AppState, e: LogEntry, key: RequestKey)
    requires RecordsOk(s.decisions) && key in s.decisions && Asks(e, key)
    ensures var d, p := s.decisions[key], e.payload.command.body;
            Step(s, e) == Applied(s, if SameContent(d, p) then Decided(d, true)
                                     else if RequestOk(p) then Rejected(IdempotencyConflict)
                                     else Rejected(ValidationFailed))
  {
    var d, p := s.decisions[key], e.payload.command.body;
    assert RecordOk(s.decisions, key);
    if RequestOk(p) { DigestInjective(d.policyId, d.subject, d.cost, p.policyId, p.subject, p.cost); }
  }

  // ---- whole logs ----

  /** However long after the first acceptance, a retry gets the original record, and
      other content under the same key is refused; neither changes the state. */
  lemma RetriesReturnOriginal(es: seq<LogEntry>, i: nat, j: nat)
    requires i < j < |es| && (forall e :: e in es ==> Timely(e)) && Run(EMPTY_STATE, es[..j]).Some?
    requires Run(EMPTY_STATE, es[..i]).Some?
    requires var first := Step(Run(EMPTY_STATE, es[..i]).value, es[i]);
             && first.Applied? && first.result.Decided? && !first.result.duplicate
             && (forall k :: i < k < j ==> !Removes(es[k], first.result.decision))
             && Asks(es[j], (first.result.decision.clientId, first.result.decision.requestId))
    ensures var d := Step(Run(EMPTY_STATE, es[..i]).value, es[i]).result.decision;
            var s, p := Run(EMPTY_STATE, es[..j]).value, es[j].payload.command.body;
            Step(s, es[j]) == Applied(s, if SameContent(d, p) then Decided(d, true)
                                         else if RequestOk(p) then Rejected(IdempotencyConflict)
                                         else Rejected(ValidationFailed))
  {
    var t := Run(EMPTY_STATE, es[..i]).value;
    var d := Step(t, es[i]).result.decision;
    var s, between := Run(EMPTY_STATE, es[..j]).value, es[i + 1..j];
    AcceptedIsRecorded(t, es[i]);
    RunSplit(EMPTY_STATE, es, i, j);
    RecordKept(Step(t, es[i]).state, between, (d.clientId, d.requestId));
    EmptyStoreOk();
    StoreAlwaysOk(EMPTY_STATE, es[..j]);
    RetryAnswer(s, es[j], (d.clientId, d.requestId));
  }

  /** The log with every request under `key` blanked out. */
  function Silenced(es: seq<LogEntry>, key: RequestKey): seq<LogEntry> {
    seq(|es|, i requires 0 <= i < |es| => if Asks(es[i], key) then es[i].(payload := Noop) else es[i])
  }

  /** While the record stands, any number of repeats behave as no-ops would. */
  lemma {:induction false} RetriesAreNoops(s: AppState, es: seq<LogEntry>, key: RequestKey)
    requires StoreOk(s) && (forall e :: e in es ==> Timely(e)) && key in s.decisions
    requires forall e :: e in es ==> !Removes(e, s.decisions[key])
    ensures Run(s, Silenced(es, key)) == Run(s, es)
  {
    if |es| == 0 {
    } else {
      var rest, e := es[..|es| - 1], es[|es| - 1];
      assert Silenced(es, key)[..|es| - 1] == Silenced(rest, key);
      RetriesAreNoops(s, rest, key);
      if Run(s, rest).Some? {
        var t := Run(s, rest).value;
        StoreAlwaysOk(s, rest);
        RecordKept(s, rest, key);
        if Asks(e, key) { RetryAnswer(t, e, key); }
      }
    }
  }
}
