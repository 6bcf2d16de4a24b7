// store/cachekv/mergeiterator.go and memiterator.go: iterating a cache together with its parent.

module MergeIterator {
  import opened Bytes
  import opened CacheKV

  datatype Pair = Pair(key: Key, value: Value)
  // A dirty cache entry; no value marks a deletion.
  datatype Item = Item(key: Key, value: Option<Value>)

  // ---------- Specification ----------

  predicate SortedPairs(asc: bool, ps: seq<Pair>) {
    |ps| > 1 ==> Before(asc, ps[0].key, ps[1].key) && SortedPairs(asc, ps[1..])
  }

  predicate SortedItems(asc: bool, cs: seq<Item>) {
    |cs| > 1 ==> Before(asc, cs[0].key, cs[1].key) && SortedItems(asc, cs[1..])
  }

  function Find(ps: seq<Pair>, k: Key): Option<Value> {
    if ps == [] then None
    else if ps[0].key == k then Some(ps[0].value)
    else Find(ps[1..], k)
  }

  function FindItem(cs: seq<Item>, k: Key): Option<Option<Value>> {
    if cs == [] then None
    else if cs[0].key == k then Some(cs[0].value)
    else FindItem(cs[1..], k)
  }

  // `ps` lists the entries of `m` with key in [start, end), each once, in iteration order.
  ghost predicate Enumerates(ps: seq<Pair>, m: View, start: Key, end: Option<Key>, asc: bool) {
    SortedPairs(asc, ps) &&
    forall k :: Find(ps, k) == if InDomain(k, start, end) then Lookup(m, k) else None
  }

  ghost predicate EnumeratesDirty(cs: seq<Item>, c: Cache, start: Key, end: Option<Key>, asc: bool) {
    SortedItems(asc, cs) &&
    forall k :: FindItem(cs, k) ==
      if InDomain(k, start, end) && k in c && c[k].dirty then Some(c[k].value) else None
  }

  function Shown(c: Item): seq<Pair> {
    if c.value.Some? then [Pair(c.key, c.value.value)] else []
  }

  // The cache shadows the parent, and its deletions hide parent entries.
  function Merge(asc: bool, ps: seq<Pair>, cs: seq<Item>): seq<Pair>
    decreases |ps| + |cs|
  {
    if cs == [] then ps
    else if ps == [] then Shown(cs[0]) + Merge(asc, ps, cs[1..])
    else if ps[0].key == cs[0].key then Shown(cs[0]) + Merge(asc, ps[1..], cs[1..])
    else if Before(asc, ps[0].key, cs[0].key) then [ps[0]] + Merge(asc, ps[1..], cs)
    else Shown(cs[0]) + Merge(asc, ps, cs[1..])
  }

  predicate Follows(asc: bool, k: Key, ps: seq<Pair>) {
    ps != [] ==> Before(asc, k, ps[0].key)
  }

  predicate FollowsItem(asc: bool, k: Key, cs: seq<Item>) {
    cs != [] ==> Before(asc, k, cs[0].key)
  }

  // ---------- Facts about sorted lists ----------

  lemma {:induction false} FindNone(asc: bool, ps: seq<Pair>, k: Key)
    requires SortedPairs(asc, ps) && Follows(asc, k, ps)
    ensures Find(ps, k) == None
  {
    if ps != [] {
      BeforeTotal(asc, k, ps[0].key);
      if |ps| > 1 { BeforeTransitive(asc, k, ps[0].key, ps[1].key); }
      FindNone(asc, ps[1..], k);
    }
  }

  lemma {:induction false} FindItemNone(asc: bool, cs: seq<Item>, k: Key)
    requires SortedItems(asc, cs) && FollowsItem(asc, k, cs)
    ensures FindItem(cs, k) == None
  {
    if cs != [] {
      BeforeTotal(asc, k, cs[0].key);
      if |cs| > 1 { BeforeTransitive(asc, k, cs[0].key, cs[1].key); }
      FindItemNone(asc, cs[1..], k);
    }
  }

  // The bytes order leaves one list only: enumerations are unique.
  lemma {:induction false} EnumerationUnique(asc: bool, ps: seq<Pair>, qs: seq<Pair>)
    requires SortedPairs(asc, ps) && SortedPairs(asc, qs)
    requires forall k :: Find(ps, k) == Find(qs, k)
    ensures ps == qs
  {
    if ps != [] || qs != [] {
      var w := if ps != [] then ps[0].key else qs[0].key;
      assert Find(ps, w) == Find(qs, w);
      assert ps != [] && qs != [];
      var a, b := ps[0].key, qs[0].key;
      BeforeTotal(asc, a, b);
      assert Find(ps, b) == Find(qs, b);
      if Before(asc, a, b) { FindNone(asc, qs, a); }
      if Before(asc, b, a) { FindNone(asc, ps, b); }
      assert ps[0] == qs[0];
      FindNone(asc, ps[1..], a);
      FindNone(asc, qs[1..], a);
      forall k ensures Find(ps[1..], k) == Find(qs[1..], k) {
        assert Find(ps, k) == Find(qs, k);
      }
      EnumerationUnique(asc, ps[1..], qs[1..]);
    }
  }

  // ---------- Merging sorted lists overlays them ----------

  lemma {:induction false} MergeFollows(asc: bool, k: Key, ps: seq<Pair>, cs: seq<Item>)
    requires SortedPairs(asc, ps) && SortedItems(asc, cs)
    requires Follows(asc, k, ps) && FollowsItem(asc, k, cs)
    ensures Follows(asc, k, Merge(asc, ps, cs))
    decreases |ps| + |cs|
  {
    if cs != [] && cs[0].value.None? {
      if |cs| > 1 { BeforeTransitive(asc, k, cs[0].key, cs[1].key); }
      if |ps| > 1 { BeforeTransitive(asc, k, ps[0].key, ps[1].key); }
      MergeFollows(asc, k, ps, cs[1..]);
      if ps != [] { MergeFollows(asc, k, ps[1..], cs[1..]); }
    }
  }

  lemma {:induction false} MergeSorted(asc: bool, ps: seq<Pair>, cs: seq<Item>)
    requires SortedPairs(asc, ps) && SortedItems(asc, cs)
    ensures SortedPairs(asc, Merge(asc, ps, cs))
    decreases |ps| + |cs|
  {
    if cs == [] {
    } else if ps != [] && ps[0].key == cs[0].key {
      MergeSorted(asc, ps[1..], cs[1..]);
      MergeFollows(asc, ps[0].key, ps[1..], cs[1..]);
      SortedCons(asc, Shown(cs[0]), Merge(asc, ps[1..], cs[1..]));
    } else if ps != [] && Before(asc, ps[0].key, cs[0].key) {
      MergeSorted(asc, ps[1..], cs);
      MergeFollows(asc, ps[0].key, ps[1..], cs);
      SortedCons(asc, [ps[0]], Merge(asc, ps[1..], cs));
    } else {
      if ps != [] { BeforeTotal(asc, ps[0].key, cs[0].key); }
      MergeSorted(asc, ps, cs[1..]);
      MergeFollows(asc, cs[0].key, ps, cs[1..]);
      SortedCons(asc, Shown(cs[0]), Merge(asc, ps, cs[1..]));
    }
  }

  lemma SortedCons(asc: bool, head: seq<Pair>, tail: seq<Pair>)
    requires |head| <= 1 && SortedPairs(asc, tail)
    requires head != [] ==> Follows(asc, head[0].key, tail)
    ensures SortedPairs(asc, head + tail)
  {
    if head == [] {
      assert head + tail == tail;
    } else {
      assert (head + tail)[1..] == tail;
    }
  }

  lemma FindCons(head: seq<Pair>, tail: seq<Pair>, k: Key)
    requires |head| <= 1
    ensures Find(head + tail, k) == if head != [] && head[0].key == k then Some(head[0].value) else Find(tail, k)
  {
    if head == [] {
      assert head + tail == tail;
    } else {
      assert (head + tail)[1..] == tail;
    }
  }

  lemma {:induction false} MergeFind(asc: bool, ps: seq<Pair>, cs: seq<Item>, k: Key)
    requires SortedPairs(asc, ps) && SortedItems(asc, cs)
    ensures Find(Merge(asc, ps, cs), k) == if FindItem(cs, k).Some? then FindItem(cs, k).value else Find(ps, k)
    decreases |ps| + |cs|
  {
    if cs == [] {
    } else if ps != [] && ps[0].key == cs[0].key {
      MergeFind(asc, ps[1..], cs[1..], k);
      FindCons(Shown(cs[0]), Merge(asc, ps[1..], cs[1..]), k);
      FindItemNone(asc, cs[1..], cs[0].key);
      FindNone(asc, ps[1..], ps[0].key);
    } else if ps != [] && Before(asc, ps[0].key, cs[0].key) {
      MergeFind(asc, ps[1..], cs, k);
      FindCons([ps[0]], Merge(asc, ps[1..], cs), k);
      FindItemNone(asc, cs, ps[0].key);
    } else {
      if ps != [] { BeforeTotal(asc, ps[0].key, cs[0].key); }
      MergeFind(asc, ps, cs[1..], k);
      FindCons(Shown(cs[0]), Merge(asc, ps, cs[1..]), k);
      FindItemNone(asc, cs[1..], cs[0].key);
      FindNone(asc, ps, cs[0].key);
    }
  }

  // Merging enumerations of the parent and of the dirty entries enumerates the overlay.
  lemma MergeEnumerates(ps: seq<Pair>, cs: seq<Item>, m: View, c: Cache, start: Key, end: Option<Key>, asc: bool)
    requires Enumerates(ps, m, start, end, asc) && EnumeratesDirty(cs, c, start, end, asc)
    ensures Enumerates(Merge(asc, ps, cs), Overlay(m, c), start, end, asc)
  {
    MergeSorted(asc, ps, cs);
    forall k
      ensures Find(Merge(asc, ps, cs), k) == if InDomain(k, start, end) then Lookup(Overlay(m, c), k) else None
    {
      MergeFind(asc, ps, cs, k);
      OverlayAt(m, c, k);
    }
  }

  // ---------- The iterators ----------

  // Either an iterator of the committed store (`parent == null`, what is left in `pairs`) or a
  // cacheMergeIterator whose memIterator still holds `items`. `Left` is what is yet to be shown.
  class Iter {
    const parent: Iter?
    const ascending: bool
    var pairs: seq<Pair>
    var items: seq<Item>
    ghost var Left: seq<Pair>
    ghost const Repr: set<Iter>

    ghost predicate Ok()
      reads Repr
      decreases Repr
    {
      if parent == null then
        Repr == {this} && Left == pairs
      else
        this !in parent.Repr && Repr == parent.Repr + {this} && parent.Ok() &&
        Left == Merge(ascending, parent.Left, items)
    }

    constructor Leaf(ps: seq<Pair>, asc: bool)
      ensures Ok() && fresh(Repr) && Left == ps
    {
      parent := null;
      ascending := asc;
      pairs, items, Left := ps, [], ps;
      Repr := {this};
    }

    // newCacheMergeIterator
    constructor Merged(p: Iter, cs: seq<Item>, asc: bool)
      requires p.Ok()
      ensures Ok() && Repr == p.Repr + {this} && fresh(this)
      ensures Left == Merge(asc, p.Left, cs)
    {
      parent := p;
      ascending := asc;
      pairs, items, Left := [], cs, Merge(asc, p.Left, cs);
      Repr := p.Repr + {this};
    }

    // The current entry of the merge is one that exists.
    ghost predicate Settled()
      reads this, parent
    {
      parent != null && items != [] && items[0].value.None? ==>
        parent.Left != [] && Before(ascending, parent.Left[0].key, items[0].key)
    }

    // Looking at an iterator may move it past deleted entries, but not change what it will show.
    method Valid() returns (valid: bool)
      requires Ok()
      modifies Repr`items, Repr`pairs, (Repr - {this})`Left
      ensures Ok() && Settled() && valid == (Left != [])
      decreases Repr, 1
    {
      if parent == null {
        valid := pairs != [];
      } else {
        valid := SkipUntilExistsOrInvalid();
      }
    }

    predicate Skippable(cs: seq<Item>, until: Option<CacheKV.Key>) {
      cs != [] && cs[0].value.None? && (until.None? || Before(ascending, cs[0].key, until.value))
    }

    method SkipCacheDeletes(until: Option<CacheKV.Key>)
      requires Ok() && parent != null
      requires until == if parent.Left == [] then None else Some(parent.Left[0].key)
      modifies this`items
      ensures Ok() && |items| <= |old(items)| && !Skippable(items, until)
      ensures Skippable(old(items), until) ==> |items| < |old(items)|
    {
      while Skippable(items, until)
        invariant Ok() && |items| <= |old(items)|
        invariant Skippable(old(items), until) ==> items == old(items) || |items| < |old(items)|
        decreases |items|
      {
        DropDelete(ascending, parent.Left, items);
        items := items[1..];
      }
    }

    method SkipUntilExistsOrInvalid() returns (valid: bool)
      requires Ok() && parent != null
      modifies Repr`items, Repr`pairs, (Repr - {this})`Left
      ensures Ok() && Settled() && valid == (Left != [])
      decreases Repr, 0
    {
      while true
        invariant Ok()
        decreases |parent.Left| + |items|
      {
        var parentValid := parent.Valid();
        if !parentValid {
          SkipCacheDeletes(None);
          return items != [];
        }
        if items == [] {
          return true;
        }
        var keyP := parent.Key();
        var keyC := items[0].key;
        BeforeTotal(ascending, keyP.value, keyC);
        if Before(ascending, keyP.value, keyC) || items[0].value.Some? {
          return true;
        }
        if keyP.value == keyC {
          var _ := parent.Next();
          items := items[1..];
        } else {
          SkipCacheDeletes(keyP);
        }
      }
      valid := true;
    }

    // None stands for the panic on an exhausted iterator.
    method Key() returns (key: Option<CacheKV.Key>)
      requires Ok()
      modifies Repr`items, Repr`pairs, (Repr - {this})`Left
      ensures Ok() && key == if Left == [] then None else Some(Left[0].key)
      decreases Repr, 2
    {
      var valid := Valid();
      if !valid {
        return None;
      }
      if parent == null {
        return Some(pairs[0].key);
      }
      var parentValid := parent.Valid();
      if !parentValid {
        return Some(items[0].key);
      }
      var keyP := parent.Key();
      if items != [] {
        BeforeTotal(ascending, items[0].key, keyP.value);
      }
      if items == [] || !Before(ascending, items[0].key, keyP.value) {
        return keyP;
      }
      return Some(items[0].key);
    }

    method Value() returns (value: Option<CacheKV.Value>)
      requires Ok()
      modifies Repr`items, Repr`pairs, (Repr - {this})`Left
      ensures Ok() && value == if Left == [] then None else Some(Left[0].value)
      decreases Repr, 2
    {
      var valid := Valid();
      if !valid {
        return None;
      }
      if parent == null {
        return Some(pairs[0].value);
      }
      var parentValid := parent.Valid();
      if !parentValid {
        return items[0].value;
      }
      var keyP := parent.Key();
      if items != [] {
        BeforeTotal(ascending, keyP.value, items[0].key);
      }
      if items == [] || Before(ascending, keyP.value, items[0].key) {
        value := parent.Value();
      } else {
        value := items[0].value;
      }
    }

    // Valid, Key and Value of the current entry; None once the iterator is invalid.
    method Current() returns (pair: Option<Pair>)
      requires Ok()
      modifies Repr`items, Repr`pairs, (Repr - {this})`Left
      ensures Ok() && pair == if Left == [] then None else Some(Left[0])
    {
      var valid := Valid();
      if !valid {
        return None;
      }
      var key := Key();
      var value := Value();
      return Some(Pair(key.value, value.value));
    }

    method Next() returns (panicked: bool)
      requires Ok()
      modifies Repr`items, Repr`pairs, Repr`Left
      ensures Ok() && panicked == (old(Left) == [])
      ensures Left == if panicked then [] else old(Left)[1..]
      decreases Repr, 2
    {
      var valid := Valid();
      if !valid {
        return true;
      }
      panicked := false;
      Left := Left[1..];
      if parent == null {
        pairs := pairs[1..];
        return;
      }
      var parentValid := parent.Valid();
      if !parentValid {
        items := items[1..];
        return;
      }
      var keyP := parent.Key();
      if items != [] {
        BeforeTotal(ascending, keyP.value, items[0].key);
      }
      if items == [] || Before(ascending, keyP.value, items[0].key) {
        var _ := parent.Next();
      } else if keyP.value == items[0].key {
        var _ := parent.Next();
        items := items[1..];
      } else {
        items := items[1..];
      }
    }
  }

  lemma DropDelete(asc: bool, ps: seq<Pair>, cs: seq<Item>)
    requires cs != [] && cs[0].value.None?
    requires ps != [] ==> Before(asc, cs[0].key, ps[0].key)
    ensures Merge(asc, ps, cs) == Merge(asc, ps, cs[1..])
  {
    if ps != [] { BeforeTotal(asc, cs[0].key, ps[0].key); }
  }

  // ---------- Store.Iterator and Store.ReverseIterator ----------

  lemma {:induction false} ItemsListed(asc: bool, cs: seq<Item>, k: Key)
    requires forall i, j :: 0 <= i < j < |cs| ==> Before(asc, cs[i].key, cs[j].key)
    ensures SortedItems(asc, cs)
    ensures FindItem(cs, k).None? ==> forall i :: 0 <= i < |cs| ==> cs[i].key != k
    ensures FindItem(cs, k).Some? ==> Item(k, FindItem(cs, k).value) in cs
  {
    if cs != [] {
      ItemsListed(asc, cs[1..], k);
      assert forall i :: 1 <= i < |cs| ==> cs[i] == cs[1..][i - 1];
    }
  }

  // The dirty entries of a cache in [start, end), in iteration order.
  method DirtyItems(c: Cache, start: Key, end: Option<Key>, asc: bool) returns (items: seq<Item>)
    ensures EnumeratesDirty(items, c, start, end, asc)
  {
    var keys := SortKeys(asc, set k | k in c && c[k].dirty && InDomain(k, start, end));
    items := [];
    for i := 0 to |keys|
      invariant |items| == i
      invariant forall j :: 0 <= j < i ==> keys[j] in c && items[j] == Item(keys[j], c[keys[j]].value)
    {
      assert keys[i] in keys;
      items := items + [Item(keys[i], c[keys[i]].value)];
    }
    forall k
      ensures SortedItems(asc, items)
      ensures FindItem(items, k) ==
        if InDomain(k, start, end) && k in c && c[k].dirty then Some(c[k].value) else None
    {
      ItemsListed(asc, items, k);
      if k in keys {
        var j :| 0 <= j < |keys| && keys[j] == k;
        assert items[j].key == k;
      }
      if FindItem(items, k).Some? {
        var j :| 0 <= j < |items| && items[j] == Item(k, FindItem(items, k).value);
        assert keys[j] in keys;
      }
    }
  }

  function ShownAll(cs: seq<Item>): seq<Pair> {
    if cs == [] then [] else Shown(cs[0]) + ShownAll(cs[1..])
  }

  lemma MergeNoParent(asc: bool, cs: seq<Item>)
    ensures Merge(asc, [], cs) == ShownAll(cs)
  {}

  // Iterating a store of any depth enumerates its view. The iterator shares nothing with the
  // store, so the entries it will show are fixed from here on.
  method NewIterator(store: Store, start: Key, end: Option<Key>, asc: bool) returns (it: Iter)
    requires store.Valid()
    ensures it.Ok() && fresh(it.Repr)
    ensures Enumerates(it.Left, store.Contents, start, end, asc)
    decreases store.Repr
  {
    if store.parent == null {
      var all := map k | k in store.data :: CValue(Some(store.data[k]), false, true);
      var items := DirtyItems(all, start, end, asc);
      SameOverlay(map[], all, store.data);
      MergeEnumerates([], items, map[], all, start, end, asc);
      MergeNoParent(asc, items);
      it := new Iter.Leaf(ShownAll(items), asc);
    } else {
      var parent := NewIterator(store.parent, start, end, asc);
      var items := DirtyItems(store.cache, start, end, asc);
      MergeEnumerates(parent.Left, items, store.parent.Contents, store.cache, start, end, asc);
      it := new Iter.Merged(parent, items, asc);
    }
  }

  // for ; it.Valid(); it.Next() { out = append(out, it) }
  method Drain(it: Iter) returns (out: seq<Pair>)
    requires it.Ok()
    modifies it.Repr
    ensures it.Ok() && out == old(it.Left) && it.Left == []
  {
    out := [];
    ghost var all := it.Left;
    var current := it.Current();
    while current.Some?
      invariant it.Ok() && |out| <= |all| && out == all[..|out|] && it.Left == all[|out|..]
      invariant current == Head(it.Left)
      decreases |all| - |out|
    {
      out := out + [current.value];
      current := Advance(it);
    }
  }

  ghost function Without(m: View, start: Key, end: Option<Key>): View {
    map k | k in m && !InDomain(k, start, end) :: m[k]
  }

  ghost function Keys(ps: seq<Pair>): set<Key> {
    set p | p in ps :: p.key
  }

  // Delete every key of a range while iterating the same store: nothing is skipped or left over.
  method ClearRange(store: Store, start: Key, end: Option<Key>)
    requires store.Valid()
    modifies store
    ensures store.Valid() && store.Contents == Without(old(store.Contents), start, end)
  {
    var it := NewIterator(store, start, end, true);
    ghost var all := it.Left;
    DeleteListed(store, it);
    ClearedAll(all, old(store.Contents), start, end, store.Contents);
  }

  method DeleteListed(store: Store, it: Iter)
    requires store.Valid() && it.Ok()
    modifies store, it.Repr
    ensures store.Valid() && store.Contents == old(Cleared(store.Contents, it.Left, |it.Left|))
  {
    ghost var all, n := it.Left, 0;
    var current := it.Current();
    while current.Some?
      invariant store.Valid() && it.Ok()
      invariant n <= |all| && it.Left == all[n..]
      invariant current == Head(it.Left)
      invariant store.Contents == Cleared(old(store.Contents), all, n)
      decreases |all| - n
    {
      store.Delete(current.value.key);
      ClearStep(old(store.Contents), all, n, store.Contents);
      n := n + 1;
      current := Advance(it);
    }
  }

  function Head(ps: seq<Pair>): Option<Pair> {
    if ps == [] then None else Some(ps[0])
  }

  // it.Next(), then it.Valid(), it.Key() and it.Value().
  method Advance(it: Iter) returns (current: Option<Pair>)
    requires it.Ok() && it.Left != []
    modifies it.Repr
    ensures it.Ok() && it.Left == old(it.Left)[1..] && current == Head(it.Left)
  {
    var _ := it.Next();
    current := it.Current();
  }

  ghost function Cleared(m: View, ps: seq<Pair>, n: nat): View
    requires n <= |ps|
  {
    m - Keys(ps[..n])
  }

  lemma ClearStep(m: View, ps: seq<Pair>, n: nat, after: View)
    requires n < |ps| && after == Cleared(m, ps, n) - {ps[n].key}
    ensures after == Cleared(m, ps, n + 1)
  {
    assert ps[..n + 1] == ps[..n] + [ps[n]];
    assert Keys(ps[..n + 1]) == Keys(ps[..n]) + {ps[n].key};
  }

  lemma {:induction false} FindIsMember(ps: seq<Pair>, k: Key)
    ensures Find(ps, k).Some? <==> k in Keys(ps)
  {
    if ps != [] {
      FindIsMember(ps[1..], k);
      assert Keys(ps) == {ps[0].key} + Keys(ps[1..]);
    }
  }

  lemma ClearedAll(ps: seq<Pair>, m: View, start: Key, end: Option<Key>, after: View)
    requires Enumerates(ps, m, start, end, true) && after == Cleared(m, ps, |ps|)
    ensures after == Without(m, start, end)
  {
    assert ps[..|ps|] == ps;
    forall k | k in m ensures k in Keys(ps) <==> InDomain(k, start, end) {
      FindIsMember(ps, k);
      assert Find(ps, k) == if InDomain(k, start, end) then Lookup(m, k) else None;
    }
  }
}
