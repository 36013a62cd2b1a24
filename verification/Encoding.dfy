/**
  Keys of the ordered store: fixed-width big-endian integers, which sort by value,
  and length-prefixed composite keys, which parse back to exactly their parts.
 */
module Encoding {
  import opened Models
  import opened Int64Math

  // ---- the store's byte order ----

  predicate Less(a: Str, b: Str) {
    |b| > 0 && (|a| == 0 || a[0] < b[0] || (a[0] == b[0] && Less(a[1..], b[1..])))
  }

  predicate AtMost(a: Str, b: Str) { a == b || Less(a, b) }

  lemma {:induction false} LessTransitive(a: Str, b: Str, c: Str)
    requires Less(a, b) && Less(b, c)
    ensures Less(a, c)
  {
    if |a| > 0 && a[0] == b[0] == c[0] { LessTransitive(a[1..], b[1..], c[1..]); }
  }

  /** Of two keys exactly one is first, unless they are the same. */
  lemma {:induction false} LessTotal(a: Str, b: Str)
    ensures Less(a, b) || a == b || Less(b, a)
    ensures !(Less(a, b) && Less(b, a)) && !Less(a, a)
  {
    if |a| > 0 {
      LessTotal(a[1..], if |b| > 0 then b[1..] else []);
      if |b| > 0 && a[0] == b[0] { assert a == [a[0]] + a[1..] && b == [b[0]] + b[1..]; }
    }
  }

  /** Keys that extend a prefix come at or after it, and before any key past it that does not. */
  lemma {:induction false} PrefixRange(prefix: Str, x: Str, k: Str)
    requires prefix <= x
    ensures AtMost(prefix, x)
    ensures AtMost(prefix, k) && !(prefix <= k) ==> Less(x, k)
  {
    if |prefix| > 0 {
      PrefixRange(prefix[1..], x[1..], if |k| > 0 then k[1..] else []);
      assert prefix == [prefix[0]] + prefix[1..];
      if |k| > 0 && k[0] == prefix[0] {
        assert k == [k[0]] + k[1..];
        assert prefix[1..] <= k[1..] ==> prefix <= k;
      }
      assert prefix[1..] == x[1..] ==> prefix == x by { assert x == [x[0]] + x[1..]; }
    } else if |x| == 0 {
      assert prefix == x;
    }
  }

  // ---- big-endian integers ----

  function Pow256(n: nat): (p: nat)
    ensures p >= 1
  {
    if n == 0 then 1 else 256 * Pow256(n - 1)
  }

  function BigEndian(v: nat, n: nat): (b: Str)
    requires v < Pow256(n)
    ensures |b| == n
  {
    if n == 0 then []
    else
      FirstByte(v, Pow256(n - 1));
      [v / Pow256(n - 1)] + BigEndian(v % Pow256(n - 1), n - 1)
  }

  function Value(b: Str): nat {
    if |b| == 0 then 0 else b[0] * Pow256(|b| - 1) + Value(b[1..])
  }

  lemma FirstByte(v: nat, p: nat)
    requires p >= 1 && v < 256 * p
    ensures 0 <= v / p < 256 && v == (v / p) * p + v % p
  {
    assert v == (v / p) * p + v % p;
    DivBelow(v, p, 256);
    DivAtLeast(v, p, 0);
  }

  lemma {:induction false} ValueFits(b: Str)
    ensures Value(b) < Pow256(|b|)
  {
    if |b| == 0 {
    } else {
      ValueFits(b[1..]);
      MulMonotone(b[0], 255, Pow256(|b| - 1));
    }
  }

  lemma {:induction false} ValueOfBigEndian(v: nat, n: nat)
    requires v < Pow256(n)
    ensures Value(BigEndian(v, n)) == v
  {
    if n == 0 {
    } else {
      FirstByte(v, Pow256(n - 1));
      ValueOfBigEndian(v % Pow256(n - 1), n - 1);
      assert BigEndian(v, n)[1..] == BigEndian(v % Pow256(n - 1), n - 1);
    }
  }

  lemma {:induction false} BigEndianOfValue(b: Str)
    ensures Value(b) < Pow256(|b|) && BigEndian(Value(b), |b|) == b
  {
    ValueFits(b);
    if |b| == 0 {
    } else {
      ValueFits(b[1..]);
      DivUnique(Value(b), Pow256(|b| - 1), b[0], Value(b[1..]));
      BigEndianOfValue(b[1..]);
    }
  }

  lemma LeadingDigit(a: nat, b: nat, p: nat, x: nat, y: nat)
    requires x < p && y < p
    ensures a < b ==> a * p + x < b * p + y
  {
    if a < b { MulMonotone(a + 1, b, p); }
  }

  /** Keys of one width sort as their values do. */
  lemma {:induction false} OrderIsNumeric(a: Str, b: Str)
    requires |a| == |b|
    ensures Less(a, b) <==> Value(a) < Value(b)
  {
    if |a| == 0 {
    } else {
      var p := Pow256(|a| - 1);
      ValueFits(a[1..]);
      ValueFits(b[1..]);
      OrderIsNumeric(a[1..], b[1..]);
      LeadingDigit(a[0], b[0], p, Value(a[1..]), Value(b[1..]));
      LeadingDigit(b[0], a[0], p, Value(b[1..]), Value(a[1..]));
    }
  }

  const U64_LIMIT: nat := 0x1_0000_0000_0000_0000

  lemma U64Width()
    ensures Pow256(8) == U64_LIMIT && Pow256(2) == 65536
  {
    assert Pow256(2) == 65536;
    assert Pow256(4) == 0x1_0000_0000;
    assert Pow256(6) == 0x1_0000_0000_0000;
  }

  function U64(v: nat): (b: Str)
    requires v < U64_LIMIT
    ensures |b| == 8
  {
    U64Width();
    BigEndian(v, 8)
  }

  /** The value of an 8-byte key; 0 for any other length. */
  function ParseU64(b: Str): nat {
    if |b| != 8 then 0 else Value(b)
  }

  lemma ParseOfU64(v: nat)
    requires v < U64_LIMIT
    ensures ParseU64(U64(v)) == v
  {
    U64Width();
    ValueOfBigEndian(v, 8);
  }

  lemma U64OfParse(b: Str)
    requires |b| == 8
    ensures ParseU64(b) < U64_LIMIT && U64(ParseU64(b)) == b
  {
    U64Width();
    BigEndianOfValue(b);
  }

  /** Log and audit keys sort by index. */
  lemma U64Order(v: nat, w: nat)
    requires v < U64_LIMIT && w < U64_LIMIT
    ensures Less(U64(v), U64(w)) <==> v < w
    ensures U64(v) == U64(w) <==> v == w
  {
    ParseOfU64(v);
    ParseOfU64(w);
    OrderIsNumeric(U64(v), U64(w));
  }

  // ---- composite keys ----

  const MAX_KEY_PART: nat := 65535

  predicate Fits(parts: seq<Str>) {
    forall i :: 0 <= i < |parts| ==> |parts[i]| <= MAX_KEY_PART
  }

  function U16(n: nat): (b: Str)
    requires n <= MAX_KEY_PART
    ensures |b| == 2
  {
    U64Width();
    BigEndian(n, 2)
  }

  function Part(p: Str): Str
    requires |p| <= MAX_KEY_PART
  {
    U16(|p|) + p
  }

  function Composite(parts: seq<Str>): Str
    requires Fits(parts)
  {
    if |parts| == 0 then [] else Part(parts[0]) + Composite(parts[1..])
  }

  function Split(key: Str): Option<seq<Str>>
    decreases |key|
  {
    if |key| == 0 then Some([])
    else if |key| < 2 then None
    else
      var n, rest := Value(key[..2]), key[2..];
      if |rest| < n then None
      else
        match Split(rest[n..])
        case None => None
        case Some(ps) => Some([rest[..n]] + ps)
  }

  lemma {:induction false} CompositeAppends(parts: seq<Str>, p: Str)
    requires Fits(parts + [p])
    ensures Fits(parts) && |p| <= MAX_KEY_PART && Composite(parts + [p]) == Composite(parts) + Part(p)
  {
    assert (parts + [p])[|parts|] == p;
    assert forall i :: 0 <= i < |parts| ==> parts[i] == (parts + [p])[i];
    if |parts| == 0 {
      assert (parts + [p])[1..] == [];
    } else {
      assert (parts + [p])[1..] == parts[1..] + [p];
      CompositeAppends(parts[1..], p);
    }
  }

  method PartsFit(parts: seq<Str>) returns (ok: bool)
    ensures ok == Fits(parts)
  {
    for i := 0 to |parts|
      invariant forall j :: 0 <= j < i ==> |parts[j]| <= MAX_KEY_PART
    {
      if |parts[i]| > MAX_KEY_PART { return false; }
    }
    return true;
  }

  lemma CompositeStep(parts: seq<Str>, i: nat)
    requires Fits(parts) && i < |parts|
    ensures Fits(parts[..i]) && Fits(parts[..i + 1])
    ensures Composite(parts[..i + 1]) == Composite(parts[..i]) + U16(|parts[i]|) + parts[i]
  {
    var hi := i + 1;
    assert parts[..hi] == parts[..i] + [parts[i]];
    CompositeAppends(parts[..i], parts[i]);
  }

  /** Length-prefixed parts, or None when one is too long for its prefix. */
  method CompositeKey(parts: seq<Str>) returns (key: Option<Str>)
    ensures key == if Fits(parts) then Some(Composite(parts)) else None
  {
    var fits := PartsFit(parts);
    if !fits { return None; }
    var out: Str := [];
    for i := 0 to |parts|
      invariant Fits(parts[..i]) && out == Composite(parts[..i])
    {
      CompositeStep(parts, i);
      out := out + U16(|parts[i]|);
      out := out + parts[i];
    }
    assert parts[..|parts|] == parts;
    return Some(out);
  }

  method SplitCompositeKey(key: Str) returns (parts: Option<seq<Str>>)
    ensures parts == Split(key)
  {
    var rest, out: seq<Str> := key, [];
    assert Split(key).Some? ==> [] + Split(key).value == Split(key).value;
    while |rest| > 0
      invariant Split(key) == match Split(rest) case None => None case Some(ps) => Some(out + ps)
      decreases |rest|
    {
      if |rest| < 2 { return None; }
      var n := Value(rest[..2]);
      var body := rest[2..];
      if |body| < n { return None; }
      ghost var tail := Split(body[n..]);
      if tail.Some? { assert out + ([body[..n]] + tail.value) == out + [body[..n]] + tail.value; }
      out := out + [body[..n]];
      rest := body[n..];
    }
    assert out + [] == out;
    return Some(out);
  }

  lemma SplitFirst(p: Str, rest: Str)
    requires |p| <= MAX_KEY_PART
    ensures Split(Part(p) + rest) == match Split(rest) case None => None case Some(ps) => Some([p] + ps)
  {
    U64Width();
    ValueOfBigEndian(|p|, 2);
    var key := Part(p) + rest;
    assert key[..2] == U16(|p|) && key[2..] == p + rest;
    assert (p + rest)[..|p|] == p && (p + rest)[|p|..] == rest;
  }

  /** Parsing undoes building, */
  lemma {:induction false} SplitOfComposite(parts: seq<Str>)
    requires Fits(parts)
    ensures Split(Composite(parts)) == Some(parts)
  {
    if |parts| == 0 {
    } else {
      SplitOfComposite(parts[1..]);
      SplitFirst(parts[0], Composite(parts[1..]));
      assert parts == [parts[0]] + parts[1..];
    }
  }

  /** and building undoes parsing, on every key that parses. */
  lemma {:induction false} CompositeOfSplit(key: Str)
    requires Split(key).Some?
    ensures Fits(Split(key).value) && Composite(Split(key).value) == key
    decreases |key|
  {
    if |key| == 0 {
    } else {
      var n, rest := Value(key[..2]), key[2..];
      CompositeOfSplit(rest[n..]);
      var p, ps := rest[..n], Split(rest[n..]).value;
      PartOfPrefix(key[..2], p);
      assert Split(key).value == [p] + ps && ([p] + ps)[1..] == ps;
      assert key == (key[..2] + p) + rest[n..];
    }
  }

  lemma PartOfPrefix(len: Str, p: Str)
    requires |len| == 2 && Value(len) == |p|
    ensures |p| <= MAX_KEY_PART && Part(p) == len + p
  {
    U64Width();
    BigEndianOfValue(len);
  }

  lemma CompositeInjective(a: seq<Str>, b: seq<Str>)
    requires Fits(a) && Fits(b) && Composite(a) == Composite(b)
    ensures a == b
  {
    SplitOfComposite(a);
    SplitOfComposite(b);
  }

  /** A pair's key extends the key of one part exactly when that part is its first. */
  lemma FirstPartIsPrefix(a: Str, b: Str, s: Str)
    requires Fits([a]) && Fits([b, s])
    ensures Composite([a]) <= Composite([b, s]) <==> a == b
  {
    assert [a][0] == a && [b, s][0] == b && [b, s][1] == s;
    assert [b, s][1..] == [s] && [a][1..] == [];
    assert Composite([a]) == Part(a) && Composite([b, s]) == Part(b) + Composite([s]);
    if Part(a) <= Part(b) + Composite([s]) {
      var rest := (Part(b) + Composite([s]))[|Part(a)|..];
      assert Composite([b, s]) == Part(a) + rest;
      SplitFirst(a, rest);
      SplitOfComposite([b, s]);
    }
  }
}
