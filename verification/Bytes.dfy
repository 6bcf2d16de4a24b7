// Byte strings and Go's bytes.Compare order on them. Store keys, denominations and printed text
// are all Go byte strings, so every module shares this one order.

module Bytes {

  type Byte = x: int | 0 <= x < 256
  type Bytes = seq<Byte>

  datatype Option<+T> = None | Some(value: T)

  // bytes.Compare(a, b) < 0
  predicate Less(a: Bytes, b: Bytes) {
    b != [] && (a == [] || a[0] < b[0] || (a[0] == b[0] && Less(a[1..], b[1..])))
  }

  predicate AtMost(a: Bytes, b: Bytes) {
    a == b || Less(a, b)
  }

  // dbm.IsKeyInDomain: start <= key, and key < end unless end is nil.
  predicate InDomain(key: Bytes, start: Bytes, end: Option<Bytes>) {
    AtMost(start, key) && (end.Some? ==> Less(key, end.value))
  }

  // The order in which an iterator visits keys.
  predicate Before(ascending: bool, a: Bytes, b: Bytes) {
    if ascending then Less(a, b) else Less(b, a)
  }

  lemma LessIrreflexive(a: Bytes)
    ensures !Less(a, a)
  {}

  lemma {:induction false} LessTransitive(a: Bytes, b: Bytes, c: Bytes)
    requires Less(a, b) && Less(b, c)
    ensures Less(a, c)
  {
    if a != [] && a[0] == b[0] && b[0] == c[0] {
      LessTransitive(a[1..], b[1..], c[1..]);
    }
  }

  lemma {:induction false} LessTotal(a: Bytes, b: Bytes)
    ensures Less(a, b) || a == b || Less(b, a)
  {
    if a != [] && b != [] && a[0] == b[0] {
      LessTotal(a[1..], b[1..]);
      assert a == [a[0]] + a[1..] && b == [b[0]] + b[1..];
    }
  }

  lemma LessAsymmetric(a: Bytes, b: Bytes)
    requires Less(a, b)
    ensures !Less(b, a) && a != b
  {
    LessIrreflexive(a);
    if Less(b, a) {
      LessTransitive(a, b, a);
    }
  }

  lemma BeforeTransitive(ascending: bool, a: Bytes, b: Bytes, c: Bytes)
    requires Before(ascending, a, b) && Before(ascending, b, c)
    ensures Before(ascending, a, c)
  {
    if ascending { LessTransitive(a, b, c); } else { LessTransitive(c, b, a); }
  }

  lemma BeforeTotal(ascending: bool, a: Bytes, b: Bytes)
    ensures Before(ascending, a, b) || a == b || Before(ascending, b, a)
    ensures Before(ascending, a, b) ==> a != b && !Before(ascending, b, a)
  {
    LessTotal(a, b);
    LessIrreflexive(a);
    if Less(a, b) { LessAsymmetric(a, b); }
    if Less(b, a) { LessAsymmetric(b, a); }
  }

  lemma {:induction false} LessPrepend(p: Bytes, a: Bytes, b: Bytes)
    ensures Less(p + a, p + b) <==> Less(a, b)
  {
    if p == [] {
      assert p + a == a && p + b == b;
    } else {
      assert (p + a)[1..] == p[1..] + a && (p + b)[1..] == p[1..] + b;
      LessPrepend(p[1..], a, b);
    }
  }

  predicate SortedKeys(ascending: bool, ks: seq<Bytes>) {
    forall i, j :: 0 <= i < j < |ks| ==> Before(ascending, ks[i], ks[j])
  }

  function Insert(ascending: bool, k: Bytes, ks: seq<Bytes>): (r: seq<Bytes>)
    requires SortedKeys(ascending, ks) && k !in ks
    ensures SortedKeys(ascending, r)
    ensures forall x :: x in r <==> x == k || x in ks
  {
    if ks == [] then [k]
    else if Before(ascending, k, ks[0]) then
      BeforeAll(ascending, k, ks);
      [k] + ks
    else
      BeforeTotal(ascending, k, ks[0]);
      var rest := Insert(ascending, k, ks[1..]);
      assert forall x :: x in ks <==> x == ks[0] || x in ks[1..];
      assert forall x :: x in rest ==> Before(ascending, ks[0], x);
      [ks[0]] + rest
  }

  lemma BeforeAll(ascending: bool, k: Bytes, ks: seq<Bytes>)
    requires SortedKeys(ascending, ks) && ks != [] && Before(ascending, k, ks[0])
    ensures forall i :: 0 <= i < |ks| ==> Before(ascending, k, ks[i])
  {
    forall i | 1 <= i < |ks| ensures Before(ascending, k, ks[i]) {
      BeforeTransitive(ascending, k, ks[0], ks[i]);
    }
  }

  // sort.Strings / sort.Slice on the keys of a Go map: the keys arrive in any order.
  method SortKeys(ascending: bool, keys: set<Bytes>) returns (ks: seq<Bytes>)
    ensures SortedKeys(ascending, ks)
    ensures forall k :: k in ks <==> k in keys
  {
    ks := [];
    var left := keys;
    while left != {}
      invariant SortedKeys(ascending, ks) && left <= keys
      invariant forall k :: k in ks <==> k in keys - left
      decreases left
    {
      var k :| k in left;
      left := left - {k};
      ks := Insert(ascending, k, ks);
    }
  }
}
