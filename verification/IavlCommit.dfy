// store/iavl/store.go, Commit: which versions of a store's history can still be read.

module IavlCommit {
  import opened CacheKV

  // After n commits: the last numRecent + 1 versions and every waypoint.
  predicate Kept(n: nat, numRecent: nat, storeEvery: nat, v: int) {
    1 <= v <= n && (v >= n - numRecent || (storeEvery != 0 && v % storeEvery == 0))
  }

  class Store {
    var tree: View
    var version: nat
    var versions: map<int, View>
    const numRecent: nat
    const storeEvery: nat
    // Every version committed so far, released or not.
    ghost var History: seq<View>

    ghost predicate Valid()
      reads this
    {
      |History| == version &&
      (forall v :: v in versions <==> Kept(version, numRecent, storeEvery, v)) &&
      (forall v :: v in versions ==> versions[v] == History[v - 1])
    }

    constructor (tree: View, numRecent: nat, storeEvery: nat)
      ensures Valid() && version == 0 && this.tree == tree && this.numRecent == numRecent && this.storeEvery == storeEvery
    {
      this.tree, version, versions, History := tree, 0, map[], [];
      this.numRecent, this.storeEvery := numRecent, storeEvery;
    }

    // Over every sequence of commits the versions that exist are exactly those to be kept, each with the
    // contents it was committed with.
    method Commit() returns (v: nat)
      requires Valid()
      modifies `version, `versions, `History
      ensures Valid() && v == version == old(version) + 1 && History == old(History) + [tree]
      ensures forall u :: u in versions <==>
                1 <= u <= v && (u >= v - numRecent || (storeEvery != 0 && u % storeEvery == 0))
      ensures forall u :: u in versions ==> versions[u] == if u == v then tree else old(History)[u - 1]
    {
      version := version + 1;
      versions := versions[version := tree];
      History := History + [tree];
      v := version;
      var previous := version - 1;
      if numRecent < previous {
        var toRelease := previous - numRecent;
        if storeEvery == 0 || toRelease % storeEvery != 0 {
          versions := versions - {toRelease};
        }
      }
    }
  }
}
