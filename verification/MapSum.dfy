// Sums over the values of a finite map and over sequences, and facts about map updates.

module MapSum {

  lemma SetTwice<K, V>(m: map<K, V>, k: K, v: V, w: V)
    ensures m[k := v][k := w] == m[k := w]
  {}

  ghost function Sum<K(!new)>(m: map<K, int>): int
    decreases m.Keys
  {
    if m == map[] then 0
    else
      var k :| k in m;
      m[k] + Sum(m - {k})
  }

  lemma {:induction false} SumPick<K(!new)>(m: map<K, int>, k: K)
    requires k in m
    ensures Sum(m) == m[k] + Sum(m - {k})
    decreases m.Keys
  {
    var x :| x in m && Sum(m) == m[x] + Sum(m - {x});
    if x != k {
      SumPick(m - {x}, k);
      SumPick(m - {k}, x);
      assert m - {x} - {k} == m - {k} - {x};
    }
  }

  function At<K>(m: map<K, int>, k: K): int {
    if k in m then m[k] else 0
  }

  // Setting one value moves the sum by the difference.
  lemma SumSet<K(!new)>(m: map<K, int>, k: K, v: int)
    ensures Sum(m[k := v]) == Sum(m) - At(m, k) + v
  {
    SumPick(m[k := v], k);
    assert m[k := v] - {k} == m - {k};
    if k in m { SumPick(m, k); } else { assert m - {k} == m; }
  }

  lemma {:induction false} SumAtLeast<K(!new)>(m: map<K, int>, k: K)
    requires forall x :: x in m ==> m[x] >= 0
    ensures Sum(m) >= At(m, k) && Sum(m) >= 0
    decreases m.Keys
  {
    if m != map[] {
      var x :| x in m && Sum(m) == m[x] + Sum(m - {x});
      SumAtLeast(m - {x}, k);
    }
  }

  lemma {:induction false} SumZero<K(!new)>(m: map<K, int>)
    requires forall x :: x in m ==> m[x] == 0
    ensures Sum(m) == 0
    decreases m.Keys
  {
    if m != map[] {
      var x :| x in m && Sum(m) == m[x] + Sum(m - {x});
      SumZero(m - {x});
    }
  }

  lemma SumSame<K(!new)>(m: map<K, int>, n: map<K, int>)
    requires m.Keys == n.Keys && forall x :: x in m ==> m[x] == n[x]
    ensures Sum(m) == Sum(n)
  {
    assert m == n;
  }

  // Sums of maps with the same keys add up.
  lemma {:induction false} SumPlus<K(!new)>(m: map<K, int>, n: map<K, int>, mn: map<K, int>)
    requires m.Keys == n.Keys == mn.Keys && forall x :: x in m ==> mn[x] == m[x] + n[x]
    ensures Sum(mn) == Sum(m) + Sum(n)
    decreases m.Keys
  {
    if mn == map[] {
      assert m == map[] && n == map[];
    } else {
      var x :| x in mn && Sum(mn) == mn[x] + Sum(mn - {x});
      SumPick(m, x);
      SumPick(n, x);
      SumPlus(m - {x}, n - {x}, mn - {x});
    }
  }

  function Restrict<K, V>(m: map<K, V>, keys: set<K>): map<K, V> {
    map x | x in m && x in keys :: m[x]
  }

  lemma RestrictAll<K, V>(m: map<K, V>, keys: set<K>)
    requires m.Keys == keys
    ensures Restrict(m, keys) == m
  {}

  lemma RestrictOne<K(!new)>(m: map<K, int>, keys: set<K>, a: K)
    requires a in m && a !in keys
    ensures Sum(Restrict(m, keys + {a})) == Sum(Restrict(m, keys)) + m[a]
  {
    SumPick(Restrict(m, keys + {a}), a);
    assert Restrict(m, keys + {a}) - {a} == Restrict(m, keys);
  }

  lemma {:induction false} RestrictUnion<K(!new)>(m: map<K, int>, a: set<K>, b: set<K>)
    requires a !! b
    ensures Sum(Restrict(m, a + b)) == Sum(Restrict(m, a)) + Sum(Restrict(m, b))
    decreases b
  {
    if b == {} {
      assert a + b == a && Restrict(m, b) == map[];
    } else {
      var x :| x in b;
      RestrictUnion(m, a, b - {x});
      assert a + b == a + (b - {x}) + {x} && b == b - {x} + {x};
      if x in m {
        RestrictOne(m, a + (b - {x}), x);
        RestrictOne(m, b - {x}, x);
      } else {
        assert Restrict(m, a + b) == Restrict(m, a + (b - {x})) && Restrict(m, b) == Restrict(m, b - {x});
      }
    }
  }

  // ---------- Sums over sequences ----------

  function SeqSum<T>(s: seq<T>, f: T -> int): int {
    if s == [] then 0 else SeqSum(s[..|s| - 1], f) + f(s[|s| - 1])
  }

  lemma {:induction false} SeqSumTakeOut<T>(x: seq<T>, v: T, y: seq<T>, f: T -> int)
    ensures SeqSum(x + [v] + y, f) == SeqSum(x + y, f) + f(v)
  {
    if y == [] {
      assert x + [v] + y == x + [v] && x + y == x && (x + [v])[..|x|] == x;
    } else {
      var rest, w := y[..|y| - 1], y[|y| - 1];
      SeqSumTakeOut(x, v, rest, f);
      assert (x + [v] + y)[..|x| + |y|] == x + [v] + rest && (x + y)[..|x + y| - 1] == x + rest;
    }
  }

  lemma {:induction false} SeqSumPermute<T>(s: seq<T>, t: seq<T>, f: T -> int)
    requires multiset(s) == multiset(t)
    ensures SeqSum(s, f) == SeqSum(t, f)
    decreases |s|
  {
    if s == [] {
      assert |multiset(t)| == 0;
    } else {
      var rest, v := s[..|s| - 1], s[|s| - 1];
      assert s == rest + [v];
      assert v in multiset(t);
      var i :| 0 <= i < |t| && t[i] == v;
      var x, y := t[..i], t[i + 1..];
      assert t == x + [v] + y;
      TakenOut(rest, v, x, y);
      SeqSumPermute(rest, x + y, f);
      SeqSumTakeOut(x, v, y, f);
    }
  }

  lemma TakenOut<T>(rest: seq<T>, v: T, x: seq<T>, y: seq<T>)
    requires multiset(rest + [v]) == multiset(x + [v] + y)
    ensures multiset(rest) == multiset(x + y)
  {
    assert multiset(rest) == multiset(rest + [v]) - multiset{v};
    assert multiset(x + y) == multiset(x + [v] + y) - multiset{v};
  }
}
