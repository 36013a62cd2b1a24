/**
  The embedded database, as far as the stores use it: a bucket is a map ordered by
  key bytes, and a cursor moves through its keys in that order.
 */
module Cursor {
  import opened Models
  import opened Encoding

  /** r is the first of the keys that satisfy `from <= k`. */
  ghost predicate IsFirstFrom(keys: set<Str>, from: Str, r: Option<Str>) {
    match r
    case None => forall k :: k in keys ==> !AtMost(from, k)
    case Some(x) => x in keys && AtMost(from, x) && forall k :: k in keys && AtMost(from, k) ==> AtMost(x, k)
  }

  ghost predicate IsFirstAfter(keys: set<Str>, after: Str, r: Option<Str>) {
    match r
    case None => forall k :: k in keys ==> !Less(after, k)
    case Some(x) => x in keys && Less(after, x) && forall k :: k in keys && Less(after, k) ==> AtMost(x, k)
  }

  ghost predicate IsLast(keys: set<Str>, r: Option<Str>) {
    match r
    case None => keys == {}
    case Some(x) => x in keys && forall k :: k in keys ==> AtMost(k, x)
  }

  /** What a cursor has yet to visit. */
  ghost function Remaining(keys: set<Str>, k: Option<Str>): set<Str> {
    if k.None? then {} else set x | x in keys && AtMost(k.value, x)
  }

  lemma NextShrinks(keys: set<Str>, k: Str, next: Option<Str>)
    requires k in keys && IsFirstAfter(keys, k, next)
    ensures Remaining(keys, next) == Remaining(keys, Some(k)) - {k}
    ensures k in Remaining(keys, Some(k))
  {
    forall x ensures x in Remaining(keys, next) <==> x in Remaining(keys, Some(k)) - {k} {
      LessTotal(k, x);
      if next.Some? {
        LessTotal(next.value, x);
        if Less(next.value, x) { LessTransitive(k, next.value, x); }
      }
    }
  }

  method Seek(keys: set<Str>, from: Str) returns (r: Option<Str>)
    ensures IsFirstFrom(keys, from, r)
  {
    r := None;
    var rest := keys;
    while rest != {}
      invariant rest <= keys && IsFirstFrom(keys - rest, from, r)
      decreases |rest|
    {
      var k :| k in rest;
      if r.Some? {
        LessTotal(k, r.value);
        if Less(k, r.value) {
          forall x | x in keys - rest && AtMost(from, x) ensures AtMost(k, x) {
            if r.value != x { LessTransitive(k, r.value, x); }
          }
        }
      }
      if AtMost(from, k) && (r.None? || Less(k, r.value)) { r := Some(k); }
      rest := rest - {k};
    }
    assert keys - rest == keys;
  }

  method Next(keys: set<Str>, after: Str) returns (r: Option<Str>)
    ensures IsFirstAfter(keys, after, r)
  {
    r := None;
    var rest := keys;
    while rest != {}
      invariant rest <= keys && IsFirstAfter(keys - rest, after, r)
      decreases |rest|
    {
      var k :| k in rest;
      if r.Some? {
        LessTotal(k, r.value);
        if Less(k, r.value) {
          forall x | x in keys - rest && Less(after, x) ensures AtMost(k, x) {
            if r.value != x { LessTransitive(k, r.value, x); }
          }
        }
      }
      if Less(after, k) && (r.None? || Less(k, r.value)) { r := Some(k); }
      rest := rest - {k};
    }
    assert keys - rest == keys;
  }

  method Last(keys: set<Str>) returns (r: Option<Str>)
    ensures IsLast(keys, r)
  {
    r := None;
    var rest := keys;
    while rest != {}
      invariant rest <= keys && IsLast(keys - rest, r)
      decreases |rest|
    {
      var k :| k in rest;
      if r.Some? {
        LessTotal(k, r.value);
        if Less(r.value, k) {
          forall x | x in keys - rest ensures AtMost(x, k) { if r.value != x { LessTransitive(x, r.value, k); } }
        }
      }
      if r.None? || Less(r.value, k) { r := Some(k); }
      rest := rest - {k};
    }
    assert keys - rest == keys;
  }

  ghost predicate Ascending(ks: seq<Str>) {
    forall i, j :: 0 <= i < j < |ks| ==> Less(ks[i], ks[j])
  }

  /** Every key once, in order. */
  method AllKeys(keys: set<Str>) returns (ks: seq<Str>)
    ensures Ascending(ks) && forall x :: x in ks <==> x in keys
  {
    ks := [];
    var k := Seek(keys, []);
    while k.Some?
      invariant k.Some? ==> k.value in keys
      invariant forall x :: x in keys <==> x in ks || x in Remaining(keys, k)
      invariant k.Some? ==> forall i :: 0 <= i < |ks| ==> Less(ks[i], k.value)
      invariant Ascending(ks)
      decreases Remaining(keys, k)
    {
      var next := Next(keys, k.value);
      NextShrinks(keys, k.value, next);
      if next.Some? {
        forall i | 0 <= i < |ks| ensures Less(ks[i], next.value) { LessTransitive(ks[i], k.value, next.value); }
      }
      ks := ks + [k.value];
      k := next;
    }
  }
}
