// store/cachekv/store.go: a write-back cache over a parent store, nested to any depth.

module CacheKV {
  import opened Bytes

  type Key = Bytes
  type Value = Bytes
  type View = map<Key, Value>

  datatype CValue = CValue(value: Option<Value>, deleted: bool, dirty: bool)
  type Cache = map<Key, CValue>

  function Lookup(m: View, k: Key): Option<Value> {
    if k in m then Some(m[k]) else None
  }

  // What a reader of the cache sees at a key: dirty entries shadow the parent.
  function Visible(m: View, c: Cache, k: Key): Option<Value> {
    if k in c && c[k].dirty then c[k].value else Lookup(m, k)
  }

  function Overlay(m: View, c: Cache): View {
    map k | k in m.Keys + c.Keys && Visible(m, c, k).Some? :: Visible(m, c, k).value
  }

  // Clean entries repeat what the parent holds; a dirty entry has no value exactly when deleted.
  ghost predicate Coherent(m: View, c: Cache) {
    forall k :: k in c ==>
      if c[k].dirty then c[k].deleted == c[k].value.None?
      else !c[k].deleted && c[k].value == Lookup(m, k)
  }

  // The parent's contents after Write has flushed the keys of `done`.
  ghost function Flushed(m: View, c: Cache, done: seq<Key>): View {
    Overlay(m, map k | k in c && k in done :: c[k])
  }

  lemma SameView(a: View, b: View)
    requires forall k :: Lookup(a, k) == Lookup(b, k)
    ensures a == b
  {
    forall k ensures k in a <==> k in b {
      assert Lookup(a, k) == Lookup(b, k);
    }
    forall k | k in a ensures a[k] == b[k] {
      assert Lookup(a, k) == Lookup(b, k);
    }
  }

  lemma OverlayAt(m: View, c: Cache, k: Key)
    ensures Lookup(Overlay(m, c), k) == Visible(m, c, k)
  {}

  lemma SameOverlay(m: View, c: Cache, m': View)
    requires forall k :: Lookup(m', k) == Visible(m, c, k)
    ensures Overlay(m, c) == m'
  {
    forall k ensures Lookup(Overlay(m, c), k) == Lookup(m', k) {
      OverlayAt(m, c, k);
      assert Lookup(m', k) == Visible(m, c, k);
    }
    SameView(Overlay(m, c), m');
  }

  lemma OverlayEmpty(m: View)
    ensures Overlay(m, map[]) == m
  {
    SameOverlay(m, map[], m);
  }

  // Caching a read changes nothing that can be seen.
  lemma OverlayClean(m: View, c: Cache, k: Key, v: Option<Value>)
    requires Coherent(m, c) && k !in c && v == Lookup(m, k)
    ensures Overlay(m, c[k := CValue(v, false, false)]) == Overlay(m, c)
    ensures Coherent(m, c[k := CValue(v, false, false)])
    ensures v == Lookup(Overlay(m, c), k)
  {
    var c' := c[k := CValue(v, false, false)];
    forall x ensures Lookup(Overlay(m, c), x) == Visible(m, c', x) {
      OverlayAt(m, c, x);
    }
    SameOverlay(m, c', Overlay(m, c));
    OverlayAt(m, c, k);
  }

  lemma OverlayHit(m: View, c: Cache, k: Key)
    requires Coherent(m, c) && k in c
    ensures c[k].value == Lookup(Overlay(m, c), k)
  {
    OverlayAt(m, c, k);
  }

  function Updated(m: View, k: Key, v: Option<Value>): View {
    if v.None? then m - {k} else m[k := v.value]
  }

  // Caching a write updates one key of the view.
  lemma OverlayDirty(m: View, c: Cache, k: Key, v: CValue)
    requires v.dirty && v.deleted == v.value.None?
    ensures Overlay(m, c[k := v]) == Updated(Overlay(m, c), k, v.value)
    ensures Coherent(m, c) ==> Coherent(m, c[k := v])
  {
    forall x ensures Lookup(Updated(Overlay(m, c), k, v.value), x) == Visible(m, c[k := v], x) {
      OverlayAt(m, c, x);
    }
    SameOverlay(m, c[k := v], Updated(Overlay(m, c), k, v.value));
  }

  lemma FlushNone(m: View, c: Cache, keys: seq<Key>)
    ensures m == Flushed(m, c, keys[..0])
  {
    SameOverlay(m, map k | k in c && k in keys[..0] :: c[k], m);
  }

  lemma FlushOne(m: View, c: Cache, keys: seq<Key>, i: nat, before: View, after: View)
    requires Coherent(m, c) && i < |keys| && keys[i] in c && c[keys[i]].dirty
    requires before == Flushed(m, c, keys[..i])
    requires after == Updated(before, keys[i], c[keys[i]].value)
    ensures after == Flushed(m, c, keys[..i + 1])
  {
    var k := keys[i];
    assert keys[..i + 1] == keys[..i] + [k];
    var done := map x | x in c && x in keys[..i] :: c[x];
    var done' := map x | x in c && x in keys[..i + 1] :: c[x];
    assert done' == done[k := c[k]];
    OverlayDirty(m, done, k, c[k]);
  }

  lemma FlushAll(m: View, c: Cache, keys: seq<Key>, p: View)
    requires forall k :: k in keys <==> k in c && c[k].dirty
    requires p == Flushed(m, c, keys[..|keys|])
    ensures p == Overlay(m, c)
  {
    assert keys[..|keys|] == keys;
    var all := map x | x in c && x in keys :: c[x];
    forall x ensures Lookup(Overlay(m, c), x) == Visible(m, all, x) {
      OverlayAt(m, c, x);
    }
    SameOverlay(m, all, Overlay(m, c));
  }

  // A store is either the committed root (`parent == null`, contents in `data`) or a cachekv.Store.
  // `Contents` is the map a reader sees; Valid() ties it to the caches of the whole chain.
  class Store {
    const parent: Store?
    var data: View
    var cache: Cache
    ghost var Contents: View
    ghost const Repr: set<Store>

    ghost predicate Valid()
      reads Repr
      decreases Repr
    {
      if parent == null then
        Repr == {this} && Contents == data
      else
        this !in parent.Repr && Repr == parent.Repr + {this} && parent.Valid() &&
        Coherent(parent.Contents, cache) && Contents == Overlay(parent.Contents, cache)
    }

    constructor Root(contents: View)
      ensures Valid() && parent == null && Repr == {this} && fresh(this) && Contents == contents
    {
      parent := null;
      data := contents;
      cache := map[];
      Contents := contents;
      Repr := {this};
    }

    // NewStore / CacheWrap
    constructor Wrap(p: Store)
      requires p.Valid()
      ensures Valid() && parent == p && Repr == p.Repr + {this} && fresh(this)
      ensures Contents == p.Contents
    {
      parent := p;
      data := map[];
      cache := map[];
      Contents := p.Contents;
      Repr := p.Repr + {this};
      OverlayEmpty(p.Contents);
    }

    // Reading fills caches all the way down; no store of the chain changes its contents.
    method Get(key: Key) returns (value: Option<Value>)
      requires Valid()
      modifies Repr`cache
      ensures Valid() && value == Lookup(Contents, key)
      decreases Repr
    {
      if parent == null {
        value := Lookup(data, key);
      } else if key !in cache {
        value := parent.Get(key);
        OverlayClean(parent.Contents, cache, key, value);
        cache := cache[key := CValue(value, false, false)];
      } else {
        OverlayHit(parent.Contents, cache, key);
        value := cache[key].value;
      }
    }

    method Has(key: Key) returns (found: bool)
      requires Valid()
      modifies Repr`cache
      ensures Valid() && found == (key in Contents)
    {
      var value := Get(key);
      found := value.Some?;
    }

    method Set(key: Key, value: Value)
      requires Valid()
      modifies this
      ensures Valid() && Contents == old(Contents)[key := value]
    {
      Contents := Contents[key := value];
      if parent == null {
        data := data[key := value];
      } else {
        OverlayDirty(parent.Contents, cache, key, CValue(Some(value), false, true));
        cache := cache[key := CValue(Some(value), false, true)];
      }
    }

    method Delete(key: Key)
      requires Valid()
      modifies this
      ensures Valid() && Contents == old(Contents) - {key}
    {
      Contents := Contents - {key};
      if parent == null {
        data := data - {key};
      } else {
        OverlayDirty(parent.Contents, cache, key, CValue(None, true, true));
        cache := cache[key := CValue(None, true, true)];
      }
    }

    // Flush dirty entries to the parent in key order. Afterwards the parent shows what this store
    // shows, and the stores below the parent are untouched.
    method Write()
      requires Valid() && parent != null
      modifies this`cache, parent
      ensures Valid() && cache == map[] && parent.Contents == Contents
    {
      var keys := SortKeys(true, set k | k in cache && cache[k].dirty);
      ghost var m := parent.Contents;
      FlushNone(m, cache, keys);
      for i := 0 to |keys|
        invariant cache == old(cache) && parent.Valid()
        invariant parent.Contents == Flushed(m, cache, keys[..i])
      {
        var key := keys[i];
        assert key in keys;
        var cacheValue := cache[key];
        ghost var before := parent.Contents;
        if cacheValue.deleted {
          parent.Delete(key);
        } else if cacheValue.value.None? {
        } else {
          parent.Set(key, cacheValue.value.value);
        }
        FlushOne(m, cache, keys, i, before, parent.Contents);
      }
      FlushAll(m, cache, keys, parent.Contents);
      cache := map[];
      OverlayEmpty(parent.Contents);
    }
  }
}
