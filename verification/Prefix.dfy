// store/types/utils.go and store/prefix/store.go: key ranges by prefix and prefixed views of a store.

module Prefix {
  import opened Bytes
  import opened CacheKV
  import opened MergeIterator

  predicate HasPrefix(k: Bytes, p: Bytes) {
    |p| <= |k| && k[..|p|] == p
  }

  // ---------- PrefixEndBytes ----------

  // The least byte string above every string with the prefix; None when there is none.
  function PrefixEnd(p: Bytes): Option<Bytes> {
    if p == [] then None
    else
      var rest := PrefixEnd(p[1..]);
      if rest.Some? then Some([p[0]] + rest.value)
      else if p[0] < 255 then Some([p[0] + 1])
      else None
  }

  lemma {:induction false} PrefixEndDrop(q: Bytes)
    ensures PrefixEnd(q + [255]) == PrefixEnd(q)
  {
    if q == [] {
      assert q + [255] == [255];
      assert PrefixEnd([255]) == None;
    } else {
      assert (q + [255])[1..] == q[1..] + [255];
      PrefixEndDrop(q[1..]);
    }
  }

  lemma {:induction false} PrefixEndIncrement(q: Bytes, b: Byte)
    requires b < 255
    ensures PrefixEnd(q + [b]) == Some(q + [b + 1])
  {
    if q == [] {
      assert q + [b] == [b] && q + [b + 1] == [b + 1];
    } else {
      assert (q + [b])[1..] == q[1..] + [b];
      PrefixEndIncrement(q[1..], b);
      assert q + [b + 1] == [q[0]] + (q[1..] + [b + 1]);
    }
  }

  method PrefixEndBytes(prefix: Bytes) returns (end: Option<Bytes>)
    ensures end == PrefixEnd(prefix)
  {
    if |prefix| == 0 {
      return None;
    }
    var e := prefix;
    while true
      invariant e != [] && PrefixEnd(e) == PrefixEnd(prefix)
      decreases |e|
    {
      var last := e[|e| - 1];
      assert e == e[..|e| - 1] + [last];
      if last != 255 {
        PrefixEndIncrement(e[..|e| - 1], last);
        assert e[|e| - 1 := last + 1] == e[..|e| - 1] + [last + 1];
        return Some(e[|e| - 1 := last + 1]);
      } else {
        PrefixEndDrop(e[..|e| - 1]);
        e := e[..|e| - 1];
        if |e| == 0 {
          return None;
        }
      }
    }
    end := None;
  }

  // A key has the prefix exactly when it lies in the range the prefix iterator asks for.
  lemma {:induction false} PrefixIsRange(k: Bytes, p: Bytes)
    ensures HasPrefix(k, p) <==> InDomain(k, p, PrefixEnd(p))
  {
    if p != [] && k != [] {
      PrefixIsRange(k[1..], p[1..]);
      ConsPrefix(k, p);
      ConsAtMost(p, k);
      var rest := PrefixEnd(p[1..]);
      if rest.Some? {
        assert ([p[0]] + rest.value)[1..] == rest.value;
      } else if p[0] < 255 {
        assert Less(k, [p[0] + 1]) <==> k[0] < p[0] + 1;
      }
    }
  }

  lemma ConsPrefix(k: Bytes, p: Bytes)
    requires p != [] && k != []
    ensures HasPrefix(k, p) <==> k[0] == p[0] && HasPrefix(k[1..], p[1..])
  {
    if k[0] == p[0] && HasPrefix(k[1..], p[1..]) {
      assert k[..|p|] == [k[0]] + k[1..][..|p| - 1];
      assert p == [p[0]] + p[1..];
    }
    if HasPrefix(k, p) {
      assert k[0] == k[..|p|][0];
      assert k[1..][..|p| - 1] == k[..|p|][1..];
    }
  }

  lemma ConsAtMost(a: Bytes, b: Bytes)
    requires a != [] && b != []
    ensures AtMost(a, b) <==> a[0] < b[0] || (a[0] == b[0] && AtMost(a[1..], b[1..]))
  {
    if a[0] == b[0] && a[1..] == b[1..] {
      assert a == [a[0]] + a[1..] && b == [b[0]] + b[1..];
    }
  }

  // ---------- Prefixed views ----------

  // The entries of `m` under the prefix, with the prefix stripped.
  ghost function PrefixView(m: View, p: Bytes): View {
    map k | k in (set x | x in m && HasPrefix(x, p) :: x[|p|..]) && p + k in m :: m[p + k]
  }

  lemma Prepended(p: Bytes, k: Key)
    ensures HasPrefix(p + k, p) && (p + k)[|p|..] == k
  {}

  lemma Stripped(p: Bytes, x: Key)
    requires HasPrefix(x, p)
    ensures x == p + x[|p|..]
  {}

  lemma PrefixViewAt(m: View, p: Bytes, k: Key)
    ensures Lookup(PrefixView(m, p), k) == Lookup(m, p + k)
  {
    Prepended(p, k);
  }

  // Writing through the prefix changes one entry of the view and nothing outside it.
  lemma PrefixViewUpdate(m: View, p: Bytes, k: Key, v: Option<Value>)
    ensures PrefixView(Updated(m, p + k, v), p) == Updated(PrefixView(m, p), k, v)
    ensures forall x :: !HasPrefix(x, p) ==> Lookup(Updated(m, p + k, v), x) == Lookup(m, x)
  {
    Prepended(p, k);
    forall x ensures Lookup(PrefixView(Updated(m, p + k, v), p), x) == Lookup(Updated(PrefixView(m, p), k, v), x) {
      PrefixViewAt(Updated(m, p + k, v), p, x);
      PrefixViewAt(m, p, x);
      Prepended(p, x);
    }
    SameView(PrefixView(Updated(m, p + k, v), p), Updated(PrefixView(m, p), k, v));
  }

  // ---------- The range a prefixed iterator asks its parent for ----------

  function ParentEnd(p: Bytes, end: Option<Key>): Option<Key> {
    if end.None? then PrefixEnd(p) else Some(p + end.value)
  }

  lemma {:induction false} BelowPrepended(x: Bytes, p: Bytes, a: Bytes, b: Bytes)
    requires AtMost(p + a, x) && Less(x, p + b)
    ensures HasPrefix(x, p)
  {
    if p != [] {
      assert (p + a)[1..] == p[1..] + a && (p + b)[1..] == p[1..] + b;
      ConsAtMost(p + a, x);
      BelowPrepended(x[1..], p[1..], a, b);
      ConsPrefix(x, p);
    }
  }

  lemma {:induction false} AtMostPrepended(p: Bytes, a: Bytes)
    ensures AtMost(p, p + a)
  {
    if a == [] {
      assert p + a == p;
    } else {
      LessPrepend(p, [], a);
      assert p + [] == p;
    }
  }

  lemma AtMostTransitive(a: Bytes, b: Bytes, c: Bytes)
    requires AtMost(a, b) && AtMost(b, c)
    ensures AtMost(a, c)
  {
    if a != b && b != c { LessTransitive(a, b, c); }
  }

  lemma ParentRange(x: Bytes, p: Bytes, start: Key, end: Option<Key>)
    ensures InDomain(x, p + start, ParentEnd(p, end)) ==> HasPrefix(x, p)
    ensures HasPrefix(x, p) ==> (InDomain(x, p + start, ParentEnd(p, end)) <==> InDomain(x[|p|..], start, end))
  {
    if InDomain(x, p + start, ParentEnd(p, end)) {
      if end.Some? {
        BelowPrepended(x, p, start, end.value);
      } else {
        AtMostPrepended(p, start);
        AtMostTransitive(p, p + start, x);
        PrefixIsRange(x, p);
      }
    }
    if HasPrefix(x, p) {
      var k := x[|p|..];
      Stripped(p, x);
      LessPrepend(p, start, k);
      if end.Some? { LessPrepend(p, k, end.value); }
      PrefixIsRange(x, p);
      assert p + start == p + k ==> start == k by { Prepended(p, start); Prepended(p, k); }
    }
  }

  function Strip(p: Bytes, ps: seq<Pair>): seq<Pair>
    requires forall i :: 0 <= i < |ps| ==> HasPrefix(ps[i].key, p)
  {
    seq(|ps|, i requires 0 <= i < |ps| && HasPrefix(ps[i].key, p) => Pair(ps[i].key[|p|..], ps[i].value))
  }

  lemma {:induction false} StripSorted(p: Bytes, ps: seq<Pair>, asc: bool)
    requires forall i :: 0 <= i < |ps| ==> HasPrefix(ps[i].key, p)
    requires SortedPairs(asc, ps)
    ensures SortedPairs(asc, Strip(p, ps))
  {
    if |ps| > 1 {
      Stripped(p, ps[0].key);
      Stripped(p, ps[1].key);
      LessPrepend(p, ps[0].key[|p|..], ps[1].key[|p|..]);
      LessPrepend(p, ps[1].key[|p|..], ps[0].key[|p|..]);
      StripSorted(p, ps[1..], asc);
      assert Strip(p, ps)[1..] == Strip(p, ps[1..]);
    }
  }

  lemma {:induction false} StripFind(p: Bytes, ps: seq<Pair>, k: Key)
    requires forall i :: 0 <= i < |ps| ==> HasPrefix(ps[i].key, p)
    ensures Find(Strip(p, ps), k) == Find(ps, p + k)
  {
    Prepended(p, k);
    if ps != [] {
      Stripped(p, ps[0].key);
      StripFind(p, ps[1..], k);
      assert Strip(p, ps)[1..] == Strip(p, ps[1..]);
    }
  }

  lemma {:induction false} FindHere(asc: bool, ps: seq<Pair>, i: nat)
    requires SortedPairs(asc, ps) && i < |ps|
    ensures Find(ps, ps[i].key).Some?
  {
    if i > 0 { FindHere(asc, ps[1..], i - 1); }
  }

  // What the parent lists in the asked range, stripped, is the prefixed view's own range.
  lemma StripEnumerates(ps: seq<Pair>, m: View, p: Bytes, start: Key, end: Option<Key>, asc: bool)
    requires Enumerates(ps, m, p + start, ParentEnd(p, end), asc)
    ensures forall i :: 0 <= i < |ps| ==> HasPrefix(ps[i].key, p)
    ensures Enumerates(Strip(p, ps), PrefixView(m, p), start, end, asc)
  {
    forall i | 0 <= i < |ps| ensures HasPrefix(ps[i].key, p) {
      var x := ps[i].key;
      FindHere(asc, ps, i);
      assert Find(ps, x) == if InDomain(x, p + start, ParentEnd(p, end)) then Lookup(m, x) else None;
      ParentRange(x, p, start, end);
    }
    StripSorted(p, ps, asc);
    forall k
      ensures Find(Strip(p, ps), k) == if InDomain(k, start, end) then Lookup(PrefixView(m, p), k) else None
    {
      StripFind(p, ps, k);
      PrefixViewAt(m, p, k);
      Prepended(p, k);
      ParentRange(p + k, p, start, end);
    }
  }

  // ---------- The prefixed store ----------

  class PrefixStore {
    const parent: Store
    const prefix: Bytes

    constructor (p: Store, pre: Bytes)
      ensures parent == p && prefix == pre
    {
      parent, prefix := p, pre;
    }

    method Get(key: Key) returns (value: Option<Value>)
      requires parent.Valid()
      modifies parent.Repr`cache
      ensures parent.Valid() && value == Lookup(PrefixView(parent.Contents, prefix), key)
    {
      value := parent.Get(prefix + key);
      PrefixViewAt(parent.Contents, prefix, key);
    }

    method Has(key: Key) returns (found: bool)
      requires parent.Valid()
      modifies parent.Repr`cache
      ensures parent.Valid() && found == (key in PrefixView(parent.Contents, prefix))
    {
      found := parent.Has(prefix + key);
      PrefixViewAt(parent.Contents, prefix, key);
    }

    method Set(key: Key, value: Value)
      requires parent.Valid()
      modifies parent
      ensures parent.Valid()
      ensures PrefixView(parent.Contents, prefix) == PrefixView(old(parent.Contents), prefix)[key := value]
      ensures forall x :: !HasPrefix(x, prefix) ==> Lookup(parent.Contents, x) == Lookup(old(parent.Contents), x)
    {
      PrefixViewUpdate(parent.Contents, prefix, key, Some(value));
      parent.Set(prefix + key, value);
    }

    method Delete(key: Key)
      requires parent.Valid()
      modifies parent
      ensures parent.Valid()
      ensures PrefixView(parent.Contents, prefix) == PrefixView(old(parent.Contents), prefix) - {key}
      ensures forall x :: !HasPrefix(x, prefix) ==> Lookup(parent.Contents, x) == Lookup(old(parent.Contents), x)
    {
      PrefixViewUpdate(parent.Contents, prefix, key, None);
      parent.Delete(prefix + key);
    }

    method NewIterator(start: Key, end: Option<Key>, asc: bool) returns (it: PrefixIter)
      requires parent.Valid()
      ensures fresh(it) && fresh(it.iter.Repr) && it.Ok()
      ensures Enumerates(it.Left(), PrefixView(parent.Contents, prefix), start, end, asc)
    {
      var newEnd: Option<Key>;
      if end.None? {
        newEnd := PrefixEndBytes(prefix);
      } else {
        newEnd := Some(prefix + end.value);
      }
      var iter := MergeIterator.NewIterator(parent, prefix + start, newEnd, asc);
      StripEnumerates(iter.Left, parent.Contents, prefix, start, end, asc);
      it := new PrefixIter(prefix, iter);
    }
  }

  class PrefixIter {
    const prefix: Bytes
    const iter: Iter
    var valid: bool

    ghost predicate Ok()
      reads this, iter.Repr, iter
    {
      iter.Ok() && valid == (iter.Left != []) &&
      forall i :: 0 <= i < |iter.Left| ==> HasPrefix(iter.Left[i].key, prefix)
    }

    ghost function Left(): seq<Pair>
      requires Ok()
      reads this, iter.Repr, iter
    {
      Strip(prefix, iter.Left)
    }

    constructor (p: Bytes, it: Iter)
      requires it.Ok() && forall i :: 0 <= i < |it.Left| ==> HasPrefix(it.Left[i].key, p)
      modifies it.Repr
      ensures prefix == p && iter == it && Ok() && it.Left == old(it.Left)
    {
      prefix, iter := p, it;
      valid := false;
      new;
      var current := it.Current();
      valid := current.Some? && HasPrefix(current.value.key, p);
    }

    // Valid and, when it holds, the current key and value.
    method Current() returns (pair: Option<Pair>)
      requires Ok()
      modifies iter.Repr`items, iter.Repr`pairs, (iter.Repr - {iter})`Left
      ensures Ok() && Left() == old(Left())
      ensures pair == if Left() == [] then None else Some(Left()[0])
    {
      if !valid {
        return None;
      }
      var current := iter.Current();
      return Some(Pair(current.value.key[|prefix|..], current.value.value));
    }

    method Next() returns (panicked: bool)
      requires Ok()
      modifies this, iter.Repr
      ensures Ok() && panicked == (old(Left()) == [])
      ensures Left() == if panicked then [] else old(Left())[1..]
    {
      if !valid {
        return true;
      }
      var _ := iter.Next();
      var current := iter.Current();
      if current.None? || !HasPrefix(current.value.key, prefix) {
        valid := false;
      }
      panicked := false;
    }
  }
}
