// store/cachemulti/store.go: the caches of several stores, wrapped and written together. The stores come
// in the order of a Go map, which is any order; the first may be the store's own db.

module CacheMulti {
  import opened CacheKV

  ghost predicate AllValid(stores: seq<Store>)
    reads set s, r | s in stores && r in s.Repr :: r
  {
    forall i :: 0 <= i < |stores| ==> stores[i].Valid()
  }

  // No two of the chains of caches share a store.
  ghost predicate Separate(stores: seq<Store>) {
    forall i, j :: 0 <= i < j < |stores| ==> stores[i].Repr !! stores[j].Repr
  }

  // NewFromKVStore and newCacheMultiStoreFromCMS: a cache over each store shows that store.
  method CacheMultiStore(parents: seq<Store>) returns (stores: seq<Store>)
    requires AllValid(parents) && Separate(parents)
    ensures |stores| == |parents| && AllValid(stores) && Separate(stores)
    ensures forall i :: 0 <= i < |stores| ==> stores[i].parent == parents[i] && stores[i].Contents == parents[i].Contents
    ensures forall i :: 0 <= i < |stores| ==> fresh(stores[i])
  {
    stores := [];
    for i := 0 to |parents|
      invariant |stores| == i && AllValid(parents) && AllValid(stores)
      invariant forall j :: 0 <= j < i ==> stores[j].parent == parents[j] && stores[j].Contents == parents[j].Contents
      invariant forall j :: 0 <= j < i ==> fresh(stores[j]) && stores[j].Repr == parents[j].Repr + {stores[j]}
      invariant Separate(stores)
    {
      var s := new Store.Wrap(parents[i]);
      stores := stores + [s];
    }
  }

  lemma Apart(stores: seq<Store>, i: nat, j: nat)
    requires Separate(stores) && i < |stores| && j < |stores| && i != j
    ensures stores[i].Repr !! stores[j].Repr
  {}

  // One store's Write, as the others see it.
  method WriteOne(stores: seq<Store>, i: nat, s: Store)
    requires i < |stores| && s == stores[i] && AllValid(stores) && Separate(stores) && s.parent != null
    modifies s`cache, s.parent
    ensures AllValid(stores) && Written(s)
    ensures forall j :: 0 <= j < |stores| ==> stores[j].Contents == old(stores[j].Contents)
    ensures forall j, r :: 0 <= j < |stores| && j != i && r in stores[j].Repr ==> unchanged(r)
  {
    forall j | 0 <= j < |stores| && j != i ensures stores[i].Repr !! stores[j].Repr && stores[j] in stores[j].Repr {
      Apart(stores, i, j);
    }
    s.Write();
  }

  // Write: every parent comes to show what its cache shows, and no cache changes its view.
  method Write(stores: seq<Store>)
    requires AllValid(stores) && Separate(stores)
    requires forall i :: 0 <= i < |stores| ==> stores[i].parent != null
    modifies stores, set i | 0 <= i < |stores| :: stores[i].parent
    ensures AllValid(stores)
    ensures forall i :: 0 <= i < |stores| ==> stores[i].Contents == old(stores[i].Contents) && Written(stores[i])
  {
    for i := 0 to |stores|
      invariant AllValid(stores)
      invariant forall j :: 0 <= j < |stores| ==> stores[j].Contents == old(stores[j].Contents)
      invariant forall j :: 0 <= j < i ==> Written(stores[j])
    {
      WriteOne(stores, i, stores[i]);
    }
  }

  ghost predicate Written(s: Store)
    reads s, s.Repr
  {
    s.parent != null && s.parent in s.Repr && s.cache == map[] && s.parent.Contents == s.Contents
  }
}
