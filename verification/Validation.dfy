/**
  Field validation: identifier alphabets, lengths, names and allowed-policy lists.
 */
module Validation {
  import opened Models

  const NEWLINE: Byte := 10
  const WILDCARD: Str := [42]  // "*"

  predicate IsLower(b: Byte) { 97 <= b <= 122 }
  predicate IsUpper(b: Byte) { 65 <= b <= 90 }
  predicate IsDigit(b: Byte) { 48 <= b <= 57 }

  /** A lower-case letter, then 2 to 47 letters, digits or underscores. */
  predicate ValidPolicyId(id: Str) {
    && 3 <= |id| <= 48
    && IsLower(id[0])
    && forall i :: 0 <= i < |id| ==> IsLower(id[i]) || IsDigit(id[i]) || id[i] == 95
  }

  predicate SubjectByte(b: Byte) {
    IsUpper(b) || IsLower(b) || IsDigit(b) || b == 46 || b == 95 || b == 58 || b == 64 || b == 47 || b == 45
  }

  predicate ValidSubject(s: Str) {
    1 <= |s| <= 128 && forall i :: 0 <= i < |s| ==> SubjectByte(s[i])
  }

  predicate RequestIdByte(b: Byte) {
    IsUpper(b) || IsLower(b) || IsDigit(b) || b == 46 || b == 95 || b == 126 || b == 45
  }

  predicate ValidRequestId(id: Str) {
    16 <= |id| <= 128 && forall i :: 0 <= i < |id| ==> RequestIdByte(id[i])
  }

  // ---- names ----

  /** Unicode white space, as Go's unicode.IsSpace classifies it. */
  predicate IsSpace(c: char) {
    var u := c as int;
    || 0x09 <= u <= 0x0D || u == 0x20 || u == 0x85 || u == 0xA0 || u == 0x1680
    || 0x2000 <= u <= 0x200A || u == 0x2028 || u == 0x2029 || u == 0x202F || u == 0x205F || u == 0x3000
  }

  function TrimLeft(s: string): string {
    if s != [] && IsSpace(s[0]) then TrimLeft(s[1..]) else s
  }

  function TrimRight(s: string): string {
    if s != [] && IsSpace(s[|s| - 1]) then TrimRight(s[..|s| - 1]) else s
  }

  function TrimSpace(s: string): string { TrimRight(TrimLeft(s)) }

  ghost predicate AllSpace(s: string) { forall i :: 0 <= i < |s| ==> IsSpace(s[i]) }

  lemma {:induction false} TrimLeftDrops(s: string) returns (k: nat)
    ensures k <= |s| && TrimLeft(s) == s[k..] && AllSpace(s[..k])
    ensures TrimLeft(s) == [] || !IsSpace(TrimLeft(s)[0])
  {
    if s != [] && IsSpace(s[0]) {
      var j := TrimLeftDrops(s[1..]);
      k := j + 1;
      assert s[1..][j..] == s[k..] && s[..k] == [s[0]] + s[1..][..j];
    } else {
      k := 0;
    }
  }

  lemma {:induction false} TrimRightDrops(s: string)
    ensures |TrimRight(s)| <= |s| && TrimRight(s) == s[..|TrimRight(s)|] && AllSpace(s[|TrimRight(s)|..])
    ensures TrimRight(s) == [] || !IsSpace(TrimRight(s)[|TrimRight(s)| - 1])
  {
    if s != [] && IsSpace(s[|s| - 1]) {
      var rest := s[..|s| - 1];
      TrimRightDrops(rest);
      var n := |TrimRight(rest)|;
      assert s[n..] == rest[n..] + [s[|s| - 1]];
    }
  }

  /** Trimming removes white space at both ends, all of it and nothing else. */
  lemma TrimmedName(s: string) returns (before: nat, after: nat)
    ensures before <= after <= |s| && TrimSpace(s) == s[before..after]
    ensures AllSpace(s[..before]) && AllSpace(s[after..])
    ensures TrimSpace(s) == [] || (!IsSpace(s[before]) && !IsSpace(s[after - 1]))
  {
    before := TrimLeftDrops(s);
    var rest := TrimLeft(s);
    TrimRightDrops(rest);
    after := before + |TrimRight(rest)|;
    assert s[after..] == rest[|TrimRight(rest)|..];
  }

  const MIN_NAME: nat := 3
  const MAX_POLICY_NAME: nat := 64
  const MAX_CLIENT_NAME: nat := 80

  /** The trimmed name, if its length in runes is within bounds. */
  function ValidateName(name: string, max: nat): Option<string> {
    var trimmed := TrimSpace(name);
    if MIN_NAME <= |trimmed| <= max then Some(trimmed) else None
  }

  // ---- allowed policies ----

  const MAX_ALLOWED_POLICIES: nat := 100

  predicate Distinct(ids: seq<Str>) {
    forall i, j :: 0 <= i < j < |ids| ==> ids[i] != ids[j]
  }

  /** Exactly ["*"], or 1 to 100 different policy ids. */
  predicate AllowedPoliciesOk(ids: seq<Str>) {
    || ids == [WILDCARD]
    || (1 <= |ids| <= MAX_ALLOWED_POLICIES && Distinct(ids) && forall i :: 0 <= i < |ids| ==> ValidPolicyId(ids[i]))
  }

  method ValidateAllowedPolicies(ids: seq<Str>) returns (ok: bool)
    ensures ok <==> AllowedPoliciesOk(ids)
  {
    if |ids| == 0 { return false; }
    if |ids| == 1 && ids[0] == WILDCARD { return true; }
    if |ids| > MAX_ALLOWED_POLICIES { return false; }
    var seen: set<Str> := {};
    var i := 0;
    while i < |ids|
      invariant 0 <= i <= |ids|
      invariant seen == set k | 0 <= k < i :: ids[k]
      invariant forall k :: 0 <= k < i ==> ValidPolicyId(ids[k])
      invariant Distinct(ids[..i])
    {
      if ids[i] == WILDCARD { return false; }
      if !ValidPolicyId(ids[i]) { return false; }
      if ids[i] in seen {
        var k :| 0 <= k < i && ids[k] == ids[i];
        return false;
      }
      seen := seen + {ids[i]};
      i := i + 1;
    }
    assert ids[..i] == ids;
    return true;
  }
}
