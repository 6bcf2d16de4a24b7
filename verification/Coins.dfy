// types/coin.go and types/dec_coin.go: lists of amounts by denomination. Both files hold the same
// algorithms; a Coin's amount is an Int, a DecCoin's the scaled integer of a Dec.

module Coins {
  import opened Bytes

  datatype Coin = Coin(denom: Bytes, amount: int)
  type Coins = seq<Coin>

  // ---------- Meaning ----------

  // The amount a list holds of a denomination, whatever the order or repetition of its entries.
  function Total(cs: Coins, d: Bytes): int {
    if cs == [] then 0
    else (if cs[0].denom == d then cs[0].amount else 0) + Total(cs[1..], d)
  }

  predicate Sorted(cs: Coins) {
    |cs| > 1 ==> Less(cs[0].denom, cs[1].denom) && Sorted(cs[1..])
  }

  predicate ZeroFree(cs: Coins) {
    forall i :: 0 <= i < |cs| ==> cs[i].amount != 0
  }

  predicate AllPositive(cs: Coins) {
    forall i :: 0 <= i < |cs| ==> cs[i].amount > 0
  }

  predicate AnyNegative(cs: Coins) {
    exists i :: 0 <= i < |cs| && cs[i].amount < 0
  }

  // What sdk.Coins promises to be.
  predicate Canonical(cs: Coins) {
    Sorted(cs) && AllPositive(cs)
  }

  // ---------- Operations ----------

  function NonZero(cs: Coins): Coins {
    if cs == [] then []
    else (if cs[0].amount == 0 then [] else [cs[0]]) + NonZero(cs[1..])
  }

  function Kept(c: Coin): Coins {
    if c.amount == 0 then [] else [c]
  }

  // safeAdd: merge two lists by denomination, dropping zeros.
  function Add(a: Coins, b: Coins): Coins
    decreases |a| + |b|
  {
    if a == [] then NonZero(b)
    else if b == [] then NonZero(a)
    else if Less(a[0].denom, b[0].denom) then Kept(a[0]) + Add(a[1..], b)
    else if a[0].denom == b[0].denom then
      Kept(Coin(a[0].denom, a[0].amount + b[0].amount)) + Add(a[1..], b[1..])
    else Kept(b[0]) + Add(a, b[1..])
  }

  function Negative(cs: Coins): (r: Coins)
    ensures |r| == |cs|
  {
    if cs == [] then [] else [Coin(cs[0].denom, -cs[0].amount)] + Negative(cs[1..])
  }

  // SafeSub without its flag; the flag is AnyNegative of the result.
  function Sub(a: Coins, b: Coins): Coins {
    Add(a, Negative(b))
  }

  predicate IsAllGTE(a: Coins, b: Coins) {
    var diff := Sub(a, b);
    diff == [] || !AnyNegative(diff)
  }

  // The recursive binary search; the panic on a malformed denomination is the caller's to check.
  function AmountOf(cs: Coins, d: Bytes): int {
    if |cs| == 0 then 0
    else if |cs| == 1 then (if cs[0].denom == d then cs[0].amount else 0)
    else
      var mid := |cs| / 2;
      if Less(d, cs[mid].denom) then AmountOf(cs[..mid], d)
      else if d == cs[mid].denom then cs[mid].amount
      else AmountOf(cs[mid + 1..], d)
  }

  lemma Push(done: Coins, c: Coins, rest: Coins, all: Coins)
    requires done + (c + rest) == all
    ensures done + c + rest == all
  {}

  lemma AddAt(a: Coins, b: Coins, i: nat, j: nat)
    requires i < |a| && j < |b|
    ensures Add(a[i..], b[j..]) ==
      if Less(a[i].denom, b[j].denom) then Kept(a[i]) + Add(a[i + 1..], b[j..])
      else if a[i].denom == b[j].denom then
        Kept(Coin(a[i].denom, a[i].amount + b[j].amount)) + Add(a[i + 1..], b[j + 1..])
      else Kept(b[j]) + Add(a[i..], b[j + 1..])
  {
    assert a[i..][1..] == a[i + 1..] && b[j..][1..] == b[j + 1..];
  }

  // How much of a is left when the loop of safeAdd has used up one of the lists.
  function Left(a: Coins, b: Coins): (n: nat)
    ensures n <= |a|
    decreases |a| + |b|
  {
    if a == [] || b == [] then |a|
    else if Less(a[0].denom, b[0].denom) then Left(a[1..], b)
    else if a[0].denom == b[0].denom then Left(a[1..], b[1..])
    else Left(a, b[1..])
  }

  predicate LeftAs(a: Coins, b: Coins, i: nat, j: nat) {
    i <= |a| && j <= |b| && Left(a[i..], b[j..]) == Left(a, b) && Left(b[j..], a[i..]) == Left(b, a)
  }

  lemma LeftAt(a: Coins, b: Coins, i: nat, j: nat)
    requires i < |a| && j < |b| && LeftAs(a, b, i, j)
    ensures Less(a[i].denom, b[j].denom) ==> LeftAs(a, b, i + 1, j)
    ensures a[i].denom == b[j].denom ==> LeftAs(a, b, i + 1, j + 1)
    ensures a[i].denom != b[j].denom && !Less(a[i].denom, b[j].denom) ==> LeftAs(a, b, i, j + 1)
  {
    assert a[i..][1..] == a[i + 1..] && b[j..][1..] == b[j + 1..];
    LessTotal(a[i].denom, b[j].denom);
    if Less(a[i].denom, b[j].denom) { LessAsymmetric(a[i].denom, b[j].denom); }
    LessIrreflexive(a[i].denom);
  }

  lemma {:induction false} LeftSelf(a: Coins)
    ensures Left(a, a) == 0
  {
    if a != [] {
      LessIrreflexive(a[0].denom);
      LeftSelf(a[1..]);
    }
  }

  // The loop of safeAdd, up to the point where one list is used up.
  method MergeHeads(coins: Coins, coinsB: Coins) returns (sum: Coins, indexA: nat, indexB: nat)
    ensures indexA <= |coins| && indexB <= |coinsB| && (indexA == |coins| || indexB == |coinsB|)
    ensures sum + Add(coins[indexA..], coinsB[indexB..]) == Add(coins, coinsB)
    ensures |coins| - indexA == Left(coins, coinsB) && |coinsB| - indexB == Left(coinsB, coins)
  {
    sum, indexA, indexB := [], 0, 0;
    MergeStart(coins, coinsB);
    while indexA < |coins| && indexB < |coinsB|
      invariant Merging(coins, coinsB, sum, indexA, indexB)
      decreases |coins| - indexA + |coinsB| - indexB
    {
      sum, indexA, indexB := MergeHead(coins, coinsB, sum, indexA, indexB);
    }
    MergeEnd(coins, coinsB, sum, indexA, indexB);
  }

  method MergeHead(coins: Coins, coinsB: Coins, done: Coins, i: nat, j: nat) returns (sum: Coins, indexA: nat, indexB: nat)
    requires i < |coins| && j < |coinsB| && Merging(coins, coinsB, done, i, j)
    ensures Merging(coins, coinsB, sum, indexA, indexB) && i <= indexA && j <= indexB && i + j < indexA + indexB
  {
    var coinA, coinB := coins[i], coinsB[j];
    MergeStep(coins, coinsB, done, i, j);
    if Less(coinA.denom, coinB.denom) {
      return done + Kept(coinA), i + 1, j;
    } else if coinA.denom == coinB.denom {
      var res := Coin(coinA.denom, coinA.amount + coinB.amount);
      return done + Kept(res), i + 1, j + 1;
    } else {
      return done + Kept(coinB), i, j + 1;
    }
  }

  lemma MergeStart(a: Coins, b: Coins)
    ensures Merging(a, b, [], 0, 0)
  {
    assert a[0..] == a && b[0..] == b;
  }

  lemma MergeEnd(a: Coins, b: Coins, sum: Coins, i: nat, j: nat)
    requires Merging(a, b, sum, i, j) && (i == |a| || j == |b|)
    ensures i <= |a| && j <= |b| && sum + Add(a[i..], b[j..]) == Add(a, b)
    ensures |a| - i == Left(a, b) && |b| - j == Left(b, a)
  {}

  ghost predicate Merging(a: Coins, b: Coins, sum: Coins, i: nat, j: nat) {
    LeftAs(a, b, i, j) && sum + Add(a[i..], b[j..]) == Add(a, b)
  }

  lemma MergeStep(a: Coins, b: Coins, sum: Coins, i: nat, j: nat)
    requires i < |a| && j < |b| && Merging(a, b, sum, i, j)
    ensures Less(a[i].denom, b[j].denom) ==> Merging(a, b, sum + Kept(a[i]), i + 1, j)
    ensures a[i].denom == b[j].denom ==>
            Merging(a, b, sum + Kept(Coin(a[i].denom, a[i].amount + b[j].amount)), i + 1, j + 1)
    ensures a[i].denom != b[j].denom && !Less(a[i].denom, b[j].denom) ==> Merging(a, b, sum + Kept(b[j]), i, j + 1)
  {
    AddAt(a, b, i, j);
    LeftAt(a, b, i, j);
    LessIrreflexive(a[i].denom);
    var all := Add(a, b);
    if Less(a[i].denom, b[j].denom) {
      Push(sum, Kept(a[i]), Add(a[i + 1..], b[j..]), all);
    } else if a[i].denom == b[j].denom {
      Push(sum, Kept(Coin(a[i].denom, a[i].amount + b[j].amount)), Add(a[i + 1..], b[j + 1..]), all);
    } else {
      Push(sum, Kept(b[j]), Add(a[i..], b[j + 1..]), all);
    }
  }

  method SafeAdd(coins: Coins, coinsB: Coins) returns (sum: Coins)
    ensures sum == Add(coins, coinsB)
  {
    var indexA, indexB: nat;
    sum, indexA, indexB := MergeHeads(coins, coinsB);
    if indexA == |coins| {
      sum := sum + NonZero(coinsB[indexB..]);
    } else {
      sum := sum + NonZero(coins[indexA..]);
    }
  }

  // removeZeroCoins on the slice coins[lo:] compacts the backing array in place.
  method RemoveZeroCoins(coins: array<Coin>, lo: nat) returns (n: nat)
    requires lo <= coins.Length
    modifies coins
    ensures lo + n <= coins.Length && coins[lo..lo + n] == NonZero(old(coins[lo..]))
    ensures coins[..lo] == old(coins[..lo])
    ensures coins[lo..] == Compacted(old(coins[lo..]), 0, |old(coins[lo..])|)
  {
    var i, l := 0, coins.Length - lo;
    assert coins[lo..][0..l] == coins[lo..];
    while i < l
      invariant 0 <= i <= l <= coins.Length - lo
      invariant coins[..lo] == old(coins[..lo])
      invariant Compacting(old(coins[lo..]), coins[lo..], i, l)
      decreases l - i
    {
      if coins[lo + i].amount == 0 {
        CompactShift(old(coins[lo..]), coins[lo..], i, l);
        RemoveAt(coins, lo, i, l);
        l := l - 1;
      } else {
        CompactKeep(old(coins[lo..]), coins[lo..], i, l);
        i := i + 1;
      }
    }
    assert coins[lo..][i..l] == [] && coins[lo..][..i] == coins[lo..lo + i];
    n := i;
  }

  method RemoveAt(coins: array<Coin>, lo: nat, i: nat, l: nat)
    requires i < l && lo + l <= coins.Length
    modifies coins
    ensures coins[..lo] == old(coins[..lo]) && coins[lo..] == Shifted(old(coins[lo..]), i, l)
  {
    ghost var was := coins[lo..];
    forall j | lo + i <= j < lo + l - 1 {
      coins[j] := coins[j + 1];
    }
    assert coins[..lo] == old(coins[..lo]);
    forall j | 0 <= j < |was| ensures coins[lo..][j] == Shifted(was, i, l)[j] {
      assert coins[lo..][j] == coins[lo + j];
    }
  }

  // safeAdd as it treats the arrays behind its operands, which may be one array: what is left of
  // the longer list is compacted where it lies.
  method SafeAddInPlace(coins: array<Coin>, coinsB: array<Coin>) returns (sum: Coins)
    modifies coins, coinsB
    ensures sum == Add(old(coins[..]), old(coinsB[..]))
    ensures coins[..] == Edited(old(coins[..]), old(coinsB[..]))
    ensures coinsB[..] == Edited(old(coinsB[..]), old(coins[..]))
  {
    ghost var a, b := coins[..], coinsB[..];
    var indexA, indexB: nat;
    sum, indexA, indexB := MergeHeads(coins[..], coinsB[..]);
    assert a[indexA..] == coins[indexA..] && b[indexB..] == coinsB[indexB..];
    EditedNone(a, b);
    EditedNone(b, a);
    if indexA == coins.Length {
      var more := Compact(coinsB, indexB);
      sum := sum + more;
      if coins == coinsB { LeftSelf(a); }
    } else {
      var more := Compact(coins, indexA);
      sum := sum + more;
      if coins == coinsB { LeftSelf(a); }
    }
  }

  // The array behind a after safeAdd of a and b.
  ghost function Edited(a: Coins, b: Coins): Coins {
    var rest := a[|a| - Left(a, b)..];
    a[..|a| - |rest|] + Compacted(rest, 0, |rest|)
  }

  lemma EditedNone(a: Coins, b: Coins)
    ensures Left(a, b) == 0 ==> Edited(a, b) == a
  {}

  // Whatever the order of a, no new entry appears, and without zeros nothing moves.
  lemma EditedFrom(a: Coins, b: Coins)
    ensures forall c :: c in Edited(a, b) ==> c in a
    ensures ZeroFree(a) ==> Edited(a, b) == a
  {
    var rest := a[|a| - Left(a, b)..];
    CompactedFrom(rest, 0, |rest|);
    assert a == a[..|a| - |rest|] + rest;
    if ZeroFree(a) { CompactedKeeps(rest, 0, |rest|); }
  }

  lemma {:induction false} CompactedFrom(cs: Coins, i: nat, l: nat)
    requires i <= l <= |cs|
    ensures forall c :: c in Compacted(cs, i, l) ==> c in cs
    decreases l - i
  {
    if i < l {
      if cs[i].amount == 0 {
        ShiftedFrom(cs, i, l, Shifted(cs, i, l));
        CompactedFrom(Shifted(cs, i, l), i, l - 1);
      } else {
        CompactedFrom(cs, i + 1, l);
      }
    }
  }

  method Compact(coins: array<Coin>, lo: nat) returns (rest: Coins)
    requires lo <= coins.Length
    modifies coins
    ensures rest == NonZero(old(coins[lo..]))
    ensures coins[..] == old(coins[..lo]) + Compacted(old(coins[lo..]), 0, |old(coins[lo..])|)
  {
    var n := RemoveZeroCoins(coins, lo);
    rest := coins[lo..lo + n];
    assert coins[..] == coins[..lo] + coins[lo..];
  }

  // An entry of sorted b is left exactly when it is above all of sorted a.
  lemma {:induction false} LeftIsAbove(b: Coins, a: Coins, i: nat)
    requires Sorted(a) && Sorted(b) && i < |b|
    ensures |b| - Left(b, a) <= i <==> AboveAll(b[i].denom, a)
    decreases |a| + |b|
  {
    if a != [] {
      var x, y := a[0], b[0];
      LessTotal(x.denom, y.denom);
      if Less(x.denom, y.denom) { LessAsymmetric(x.denom, y.denom); }
      LessIrreflexive(x.denom);
      if Less(y.denom, x.denom) {
        LessAsymmetric(y.denom, x.denom);
        if i > 0 { LeftIsAbove(b[1..], a, i - 1); }
      } else {
        if i > 0 { SortedSplit(b, i); }
        if x.denom == y.denom {
          if i > 0 { LeftIsAbove(b[1..], a[1..], i - 1); }
        } else {
          LeftIsAbove(b, a[1..], i);
          if i > 0 { LessTransitive(x.denom, y.denom, b[i].denom); }
        }
        assert forall c :: c in a <==> c == x || c in a[1..];
      }
    }
  }

  predicate AboveAll(d: Bytes, a: Coins) {
    forall c :: c in a ==> Less(c.denom, d)
  }

  // Some entry of b but its last is zero and above all of a.
  predicate ZeroAbove(b: Coins, a: Coins) {
    exists i :: 0 <= i < |b| - 1 && b[i].amount == 0 && AboveAll(b[i].denom, a)
  }

  // For sorted lists, safeAdd leaves the array behind b alone exactly when b has no such entry.
  lemma EditedSame(b: Coins, a: Coins)
    requires Sorted(a) && Sorted(b)
    ensures Edited(b, a) == b <==> !ZeroAbove(b, a)
  {
    var k := |b| - Left(b, a);
    var rest := b[k..];
    assert Sorted(rest) by { if 0 < k { SortedSplit(b, k - 1); } else { assert rest == b; } }
    CompactedSame(rest);
    SameTail(b, k, rest, Compacted(rest, 0, |rest|));
    ZerosLeft(b, a, k, rest);
  }

  lemma SameTail(b: Coins, k: nat, rest: Coins, r: Coins)
    requires k <= |b| && rest == b[k..]
    ensures b[..k] + r == b <==> r == rest
  {
    assert b == b[..k] + rest;
    assert (b[..k] + r)[k..] == r;
  }

  lemma ZerosLeft(b: Coins, a: Coins, k: nat, rest: Coins)
    requires Sorted(a) && Sorted(b) && k == |b| - Left(b, a) && rest == b[k..]
    ensures InnerZero(rest) <==> ZeroAbove(b, a)
  {
    if InnerZero(rest) {
      var z :| 0 <= z < |rest| - 1 && rest[z].amount == 0;
      LeftIsAbove(b, a, k + z);
      assert b[k + z].amount == 0;
    }
    if ZeroAbove(b, a) {
      var z :| 0 <= z < |b| - 1 && b[z].amount == 0 && AboveAll(b[z].denom, a);
      LeftIsAbove(b, a, z);
      assert rest[z - k].amount == 0;
    }
  }

  // append(coins[:i], coins[i+1:l]...) as the whole array sees it.
  ghost function Shifted(cs: Coins, i: nat, l: nat): Coins
    requires i < l <= |cs|
  {
    cs[..i] + cs[i + 1..l] + cs[l - 1..]
  }

  // The whole array after the loop has gone from i to l.
  ghost function Compacted(cs: Coins, i: nat, l: nat): (r: Coins)
    requires i <= l <= |cs|
    ensures |r| == |cs|
    decreases l - i
  {
    if i == l then cs
    else if cs[i].amount == 0 then Compacted(Shifted(cs, i, l), i, l - 1)
    else Compacted(cs, i + 1, l)
  }

  // Some entry but the last is zero.
  predicate InnerZero(cs: Coins) {
    exists i :: 0 <= i < |cs| - 1 && cs[i].amount == 0
  }

  predicate Rising(cs: Coins, i: nat, l: nat) {
    forall j :: i <= j < l - 1 < |cs| ==> Less(cs[j].denom, cs[j + 1].denom)
  }

  lemma {:induction false} SortedRising(cs: Coins)
    requires Sorted(cs)
    ensures Rising(cs, 0, |cs|)
  {
    if |cs| > 1 {
      SortedRising(cs[1..]);
      forall j | 0 <= j < |cs| - 1 ensures Less(cs[j].denom, cs[j + 1].denom) {
        if j > 0 { assert Less(cs[1..][j - 1].denom, cs[1..][j].denom); }
      }
    }
  }

  lemma {:induction false} CompactedKeeps(cs: Coins, i: nat, l: nat)
    requires i <= l <= |cs| && forall j :: i <= j < l - 1 ==> cs[j].amount != 0
    ensures Compacted(cs, i, l) == cs
    decreases l - i
  {
    if i < l {
      if cs[i].amount == 0 {
        assert Shifted(cs, i, l) == cs;
      } else {
        CompactedKeeps(cs, i + 1, l);
      }
    }
  }

  // Every place ends up with its own entry or a later one.
  lemma {:induction false} CompactedGrows(cs: Coins, i: nat, l: nat, j: nat)
    requires i <= l <= |cs| && Rising(cs, i, l) && j < |cs|
    ensures AtMost(cs[j].denom, Compacted(cs, i, l)[j].denom)
    decreases l - i
  {
    if i < l {
      if cs[i].amount == 0 {
        var s := Shifted(cs, i, l);
        ShiftedRising(cs, i, l, s);
        CompactedGrows(s, i, l - 1, j);
        assert s[j] == if i <= j < l - 1 then cs[j + 1] else cs[j];
        if i <= j < l - 1 { AtMostTrans(cs[j].denom, s[j].denom, Compacted(cs, i, l)[j].denom); }
      } else {
        CompactedGrows(cs, i + 1, l, j);
      }
    }
  }

  lemma AtMostTrans(a: Bytes, b: Bytes, c: Bytes)
    requires Less(a, b) && AtMost(b, c)
    ensures Less(a, c)
  {
    if b != c { LessTransitive(a, b, c); }
  }

  lemma ShiftedRising(cs: Coins, i: nat, l: nat, s: Coins)
    requires i < l <= |cs| && Rising(cs, i, l) && s == Shifted(cs, i, l)
    ensures Rising(s, i, l - 1)
  {
    forall j | i <= j < l - 2 ensures Less(s[j].denom, s[j + 1].denom) {
      assert s[j] == cs[j + 1] && s[j + 1] == cs[j + 2];
    }
  }

  lemma {:induction false} CompactedMoves(cs: Coins, i: nat, l: nat, z: nat)
    requires i <= z < l - 1 < |cs| && Rising(cs, i, l) && cs[z].amount == 0
    ensures Compacted(cs, i, l) != cs
    decreases l - i
  {
    if cs[i].amount == 0 {
      var s := Shifted(cs, i, l);
      assert s[i] == cs[i + 1];
      ShiftedRising(cs, i, l, s);
      CompactedGrows(s, i, l - 1, i);
      AtMostTrans(cs[i].denom, s[i].denom, Compacted(cs, i, l)[i].denom);
      LessIrreflexive(cs[i].denom);
    } else {
      CompactedMoves(cs, i + 1, l, z);
    }
  }

  // A sorted slice keeps its array exactly when no entry but the last is zero.
  lemma CompactedSame(cs: Coins)
    requires Sorted(cs)
    ensures Compacted(cs, 0, |cs|) == cs <==> !InnerZero(cs)
  {
    SortedRising(cs);
    if InnerZero(cs) {
      var z :| 0 <= z < |cs| - 1 && cs[z].amount == 0;
      CompactedMoves(cs, 0, |cs|, z);
    } else {
      CompactedKeeps(cs, 0, |cs|);
    }
  }

  // Adding [0aaa, 1bbb] to nothing leaves the caller with [1bbb, 1bbb].
  lemma CompactionChanges()
    ensures var a, b := Coin([97, 97, 97], 0), Coin([98, 98, 98], 1); Edited([a, b], []) == [b, b]
  {
    var a, b := Coin([97, 97, 97], 0), Coin([98, 98, 98], 1);
    assert [a, b][0..] == [a, b] && Shifted([a, b], 0, 2) == [b, b];
  }

  ghost predicate Compacting(was: Coins, cs: Coins, i: nat, l: nat) {
    i <= l <= |cs| && |cs| == |was| &&
    cs[..i] + NonZero(cs[i..l]) == NonZero(was) && Compacted(cs, i, l) == Compacted(was, 0, |was|)
  }

  lemma CompactShift(was: Coins, cs: Coins, i: nat, l: nat)
    requires i < l && Compacting(was, cs, i, l) && cs[i].amount == 0
    ensures Compacting(was, Shifted(cs, i, l), i, l - 1)
  {
    var s := Shifted(cs, i, l);
    ShiftedParts(cs, i, l, s);
    DropZero(cs[i..l], cs[i + 1..l]);
  }

  lemma ShiftedParts(cs: Coins, i: nat, l: nat, s: Coins)
    requires i < l <= |cs| && s == Shifted(cs, i, l)
    ensures |s| == |cs| && s[..i] == cs[..i] && s[i..l - 1] == cs[i + 1..l]
  {}

  lemma ShiftedFrom(cs: Coins, i: nat, l: nat, s: Coins)
    requires i < l <= |cs| && s == Shifted(cs, i, l)
    ensures forall c :: c in s ==> c in cs
  {}

  lemma DropZero(a: Coins, b: Coins)
    requires a != [] && a[0].amount == 0 && a[1..] == b
    ensures NonZero(a) == NonZero(b)
  {}

  lemma CompactKeep(was: Coins, cs: Coins, i: nat, l: nat)
    requires i < l && Compacting(was, cs, i, l) && cs[i].amount != 0
    ensures Compacting(was, cs, i + 1, l)
  {
    assert cs[i..l][0] == cs[i] && cs[i..l][1..] == cs[i + 1..l];
    Push(cs[..i], [cs[i]], NonZero(cs[i + 1..l]), NonZero(was));
    assert cs[..i + 1] == cs[..i] + [cs[i]];
  }

  // ---------- What the operations compute ----------

  lemma {:induction false} TotalConcat(a: Coins, b: Coins, d: Bytes)
    ensures Total(a + b, d) == Total(a, d) + Total(b, d)
  {
    if a == [] {
      assert a + b == b;
    } else {
      assert (a + b)[1..] == a[1..] + b;
      TotalConcat(a[1..], b, d);
    }
  }

  lemma TotalKept(c: Coin, d: Bytes)
    ensures Total(Kept(c), d) == Total([c], d) == if c.denom == d then c.amount else 0
  {}

  lemma {:induction false} TotalNonZero(cs: Coins, d: Bytes)
    ensures Total(NonZero(cs), d) == Total(cs, d)
  {
    if cs != [] {
      TotalNonZero(cs[1..], d);
      TotalConcat(Kept(cs[0]), NonZero(cs[1..]), d);
      TotalKept(cs[0], d);
    }
  }

  // safeAdd conserves every denomination, sorted inputs or not.
  lemma {:induction false} AddTotal(a: Coins, b: Coins, d: Bytes)
    ensures Total(Add(a, b), d) == Total(a, d) + Total(b, d)
    decreases |a| + |b|
  {
    if a == [] {
      TotalNonZero(b, d);
    } else if b == [] {
      TotalNonZero(a, d);
    } else if Less(a[0].denom, b[0].denom) {
      AddTotal(a[1..], b, d);
      TotalConcat(Kept(a[0]), Add(a[1..], b), d);
      TotalKept(a[0], d);
    } else if a[0].denom == b[0].denom {
      var c := Coin(a[0].denom, a[0].amount + b[0].amount);
      AddTotal(a[1..], b[1..], d);
      TotalConcat(Kept(c), Add(a[1..], b[1..]), d);
      TotalKept(c, d);
    } else {
      AddTotal(a, b[1..], d);
      TotalConcat(Kept(b[0]), Add(a, b[1..]), d);
      TotalKept(b[0], d);
    }
  }

  predicate Above(d: Bytes, cs: Coins) {
    cs != [] ==> Less(d, cs[0].denom)
  }

  lemma SortedCons(c: Coins, rest: Coins)
    requires |c| <= 1 && Sorted(rest) && (c != [] ==> Above(c[0].denom, rest))
    ensures Sorted(c + rest)
  {
    if c == [] {
      assert c + rest == rest;
    } else {
      assert (c + rest)[1..] == rest;
    }
  }

  lemma {:induction false} NonZeroShape(cs: Coins, d: Bytes)
    requires Sorted(cs)
    ensures Sorted(NonZero(cs)) && ZeroFree(NonZero(cs)) && (Above(d, cs) ==> Above(d, NonZero(cs)))
  {
    if cs != [] {
      NonZeroShape(cs[1..], cs[0].denom);
      if |cs| > 1 && Above(d, cs) { LessTransitive(d, cs[0].denom, cs[1].denom); }
      NonZeroShape(cs[1..], d);
      SortedCons(Kept(cs[0]), NonZero(cs[1..]));
    }
  }

  lemma TailAbove(d: Bytes, cs: Coins)
    requires Sorted(cs) && cs != [] && (d == cs[0].denom || Less(d, cs[0].denom))
    ensures Above(d, cs[1..])
  {
    if |cs| > 1 && Less(d, cs[0].denom) { LessTransitive(d, cs[0].denom, cs[1].denom); }
  }

  lemma {:induction false} AddAbove(a: Coins, b: Coins, d: Bytes)
    requires Sorted(a) && Sorted(b) && Above(d, a) && Above(d, b)
    ensures Above(d, Add(a, b))
    decreases |a| + |b|
  {
    if a == [] {
      NonZeroShape(b, d);
    } else if b == [] {
      NonZeroShape(a, d);
    } else if Less(a[0].denom, b[0].denom) {
      TailAbove(d, a);
      AddAbove(a[1..], b, d);
      KeptAbove(a[0], Add(a[1..], b), d);
    } else if a[0].denom == b[0].denom {
      TailAbove(d, a);
      TailAbove(d, b);
      AddAbove(a[1..], b[1..], d);
      KeptAbove(Coin(a[0].denom, a[0].amount + b[0].amount), Add(a[1..], b[1..]), d);
    } else {
      TailAbove(d, b);
      AddAbove(a, b[1..], d);
      KeptAbove(b[0], Add(a, b[1..]), d);
    }
  }

  lemma KeptAbove(c: Coin, rest: Coins, d: Bytes)
    requires Less(d, c.denom) && Above(d, rest)
    ensures Above(d, Kept(c) + rest)
  {}

  // On strictly sorted lists the sum is strictly sorted and holds no zero.
  lemma {:induction false} AddShape(a: Coins, b: Coins)
    requires Sorted(a) && Sorted(b)
    ensures Sorted(Add(a, b)) && ZeroFree(Add(a, b))
    decreases |a| + |b|
  {
    if a == [] {
      NonZeroShape(b, []);
    } else if b == [] {
      NonZeroShape(a, []);
    } else if Less(a[0].denom, b[0].denom) {
      AddShape(a[1..], b);
      TailAbove(a[0].denom, a);
      AddAbove(a[1..], b, a[0].denom);
      SortedCons(Kept(a[0]), Add(a[1..], b));
    } else if a[0].denom == b[0].denom {
      AddShape(a[1..], b[1..]);
      TailAbove(a[0].denom, a);
      TailAbove(a[0].denom, b);
      AddAbove(a[1..], b[1..], a[0].denom);
      SortedCons(Kept(Coin(a[0].denom, a[0].amount + b[0].amount)), Add(a[1..], b[1..]));
    } else {
      LessTotal(a[0].denom, b[0].denom);
      AddShape(a, b[1..]);
      TailAbove(b[0].denom, b);
      AddAbove(a, b[1..], b[0].denom);
      SortedCons(Kept(b[0]), Add(a, b[1..]));
    }
  }

  lemma {:induction false} TotalAbsent(cs: Coins, d: Bytes)
    requires Sorted(cs) && Above(d, cs)
    ensures Total(cs, d) == 0
  {
    if cs != [] {
      LessIrreflexive(d);
      TailAbove(d, cs);
      TotalAbsent(cs[1..], d);
    }
  }

  // In a strictly sorted list the total of a denomination is its one entry.
  lemma {:induction false} TotalAt(cs: Coins, i: nat)
    requires Sorted(cs) && i < |cs|
    ensures Total(cs, cs[i].denom) == cs[i].amount
    ensures i > 0 ==> Less(cs[0].denom, cs[i].denom)
  {
    if i == 0 {
      TailAbove(cs[0].denom, cs);
      TotalAbsent(cs[1..], cs[0].denom);
    } else {
      TotalAt(cs[1..], i - 1);
      if i > 1 { LessTransitive(cs[0].denom, cs[1].denom, cs[i].denom); }
      LessIrreflexive(cs[0].denom);
    }
  }

  lemma {:induction false} TotalNegative(cs: Coins, d: Bytes)
    ensures Total(Negative(cs), d) == -Total(cs, d)
    ensures Sorted(cs) ==> Sorted(Negative(cs))
  {
    if cs != [] {
      TotalNegative(cs[1..], d);
      assert Negative(cs)[1..] == Negative(cs[1..]);
    }
  }

  lemma SubTotal(a: Coins, b: Coins, d: Bytes)
    ensures Total(Sub(a, b), d) == Total(a, d) - Total(b, d)
  {
    TotalNegative(b, d);
    AddTotal(a, Negative(b), d);
  }

  lemma SubShape(a: Coins, b: Coins)
    requires Sorted(a) && Sorted(b)
    ensures Sorted(Sub(a, b)) && ZeroFree(Sub(a, b))
  {
    TotalNegative(b, []);
    AddShape(a, Negative(b));
  }

  lemma {:induction false} SomeEntry(cs: Coins, d: Bytes)
    requires Total(cs, d) < 0
    ensures AnyNegative(cs)
  {
    if cs[0].amount >= 0 {
      SomeEntry(cs[1..], d);
      var i :| 0 <= i < |cs[1..]| && cs[1..][i].amount < 0;
      assert cs[i + 1].amount < 0;
    }
  }

  // SafeSub reports a negative amount exactly when some denomination is short.
  lemma SafeSubFlag(a: Coins, b: Coins)
    requires Sorted(a) && Sorted(b)
    ensures AnyNegative(Sub(a, b)) <==> exists d :: Total(a, d) < Total(b, d)
  {
    SubShape(a, b);
    if AnyNegative(Sub(a, b)) {
      var i :| 0 <= i < |Sub(a, b)| && Sub(a, b)[i].amount < 0;
      TotalAt(Sub(a, b), i);
      SubTotal(a, b, Sub(a, b)[i].denom);
      assert Total(a, Sub(a, b)[i].denom) < Total(b, Sub(a, b)[i].denom);
    }
    if exists d :: Total(a, d) < Total(b, d) {
      var d :| Total(a, d) < Total(b, d);
      SubTotal(a, b, d);
      SomeEntry(Sub(a, b), d);
    }
  }

  // IsAllGTE is the pointwise order.
  lemma IsAllGTEPointwise(a: Coins, b: Coins)
    requires Sorted(a) && Sorted(b)
    ensures IsAllGTE(a, b) <==> forall d :: Total(a, d) >= Total(b, d)
  {
    SafeSubFlag(a, b);
  }

  // ---------- Lists are determined by their totals ----------

  lemma {:induction false} SameCoins(a: Coins, b: Coins)
    requires Sorted(a) && Sorted(b) && ZeroFree(a) && ZeroFree(b)
    requires forall d :: Total(a, d) == Total(b, d)
    ensures a == b
  {
    if a != [] || b != [] {
      var w := if a != [] then a[0].denom else b[0].denom;
      if a != [] { TotalAt(a, 0); }
      if b != [] { TotalAt(b, 0); }
      assert Total(a, w) == Total(b, w);
      assert a != [] && b != [];
      assert Total(a, b[0].denom) == Total(b, b[0].denom);
      LessTotal(a[0].denom, b[0].denom);
      if Less(a[0].denom, b[0].denom) { TotalAbsent(b, a[0].denom); }
      if Less(b[0].denom, a[0].denom) { TotalAbsent(a, b[0].denom); }
      assert a[0] == b[0];
      forall d ensures Total(a[1..], d) == Total(b[1..], d) {
        assert Total(a, d) == Total(b, d);
      }
      SameCoins(a[1..], b[1..]);
    }
  }

  lemma AddCommutes(a: Coins, b: Coins)
    requires Sorted(a) && Sorted(b)
    ensures Add(a, b) == Add(b, a)
  {
    AddShape(a, b);
    AddShape(b, a);
    forall d ensures Total(Add(a, b), d) == Total(Add(b, a), d) {
      AddTotal(a, b, d);
      AddTotal(b, a, d);
    }
    SameCoins(Add(a, b), Add(b, a));
  }

  // Subtracting what was added gives the list back.
  lemma SubUndoesAdd(a: Coins, b: Coins)
    requires Sorted(a) && ZeroFree(a) && Sorted(b)
    ensures Sub(Add(a, b), b) == a
  {
    AddShape(a, b);
    SubShape(Add(a, b), b);
    forall d ensures Total(Sub(Add(a, b), b), d) == Total(a, d) {
      AddTotal(a, b, d);
      SubTotal(Add(a, b), b, d);
    }
    SameCoins(Sub(Add(a, b), b), a);
  }

  // ---------- AmountOf ----------

  lemma {:induction false} SortedSplit(cs: Coins, k: nat)
    requires Sorted(cs) && k < |cs|
    ensures Sorted(cs[..k]) && Sorted(cs[k + 1..]) && Above(cs[k].denom, cs[k + 1..])
    ensures forall i :: 0 <= i < k ==> Less(cs[i].denom, cs[k].denom)
  {
    if k > 0 {
      SortedSplit(cs[1..], k - 1);
      assert cs[..k][1..] == cs[1..][..k - 1] && cs[1..][k..] == cs[k + 1..];
      TotalAt(cs, k);
      forall i | 1 <= i < k ensures Less(cs[i].denom, cs[k].denom) {
        assert cs[i] == cs[1..][i - 1];
      }
    }
  }

  lemma {:induction false} TotalElsewhere(cs: Coins, d: Bytes)
    requires forall i :: 0 <= i < |cs| ==> cs[i].denom != d
    ensures Total(cs, d) == 0
  {
    if cs != [] { TotalElsewhere(cs[1..], d); }
  }

  lemma TotalSplit(cs: Coins, k: nat, d: Bytes)
    requires Sorted(cs) && k < |cs|
    ensures Total(cs, d) == if Less(d, cs[k].denom) then Total(cs[..k], d)
                            else if d == cs[k].denom then cs[k].amount
                            else Total(cs[k + 1..], d)
  {
    SortedSplit(cs, k);
    assert cs == cs[..k] + ([cs[k]] + cs[k + 1..]);
    TotalConcat(cs[..k], [cs[k]] + cs[k + 1..], d);
    TotalConcat([cs[k]], cs[k + 1..], d);
    TotalKept(cs[k], d);
    LessIrreflexive(d);
    if Less(d, cs[k].denom) {
      BelowTail(d, cs[k].denom, cs[k + 1..]);
      TotalAbsent(cs[k + 1..], d);
    } else {
      TotalElsewhere(cs[..k], d);
      if d == cs[k].denom { TotalAt(cs, k); }
    }
  }

  // The binary search finds what a linear scan finds.
  lemma {:induction false} AmountOfIsTotal(cs: Coins, d: Bytes)
    requires Sorted(cs)
    ensures AmountOf(cs, d) == Total(cs, d)
    decreases |cs|
  {
    if |cs| > 1 {
      var mid := |cs| / 2;
      SortedSplit(cs, mid);
      TotalSplit(cs, mid, d);
      AmountOfIsTotal(cs[..mid], d);
      AmountOfIsTotal(cs[mid + 1..], d);
    }
  }

  lemma BelowTail(d: Bytes, e: Bytes, cs: Coins)
    requires Less(d, e) && Above(e, cs)
    ensures Above(d, cs)
  {
    if cs != [] { LessTransitive(d, e, cs[0].denom); }
  }

  // ---------- IsValid ----------

  predicate IsLetter(b: Byte) { 97 <= b <= 122 }

  predicate IsDigit(b: Byte) { 48 <= b <= 57 }

  // [a-z][a-z0-9]{2,15}
  predicate ValidDenom(d: Bytes) {
    3 <= |d| <= 16 && IsLetter(d[0]) && forall i :: 0 <= i < |d| ==> IsLetter(d[i]) || IsDigit(d[i])
  }

  // strings.ToLower leaves it alone
  predicate IsLower(d: Bytes) {
    forall i :: 0 <= i < |d| ==> !(65 <= d[i] <= 90)
  }

  // The loop over coins[1:], each compared with the denomination before it.
  predicate ValidAfter(low: Bytes, cs: Coins)
    decreases cs
  {
    cs == [] ||
    (IsLower(cs[0].denom) && Less(low, cs[0].denom) && cs[0].amount > 0 && ValidAfter(cs[0].denom, cs[1..]))
  }

  // The regular expression is applied to the first denomination only.
  predicate IsValid(cs: Coins) {
    cs == [] || (ValidDenom(cs[0].denom) && cs[0].amount > 0 && ValidAfter(cs[0].denom, cs[1..]))
  }

  predicate ValidDenoms(cs: Coins) {
    forall i :: 0 <= i < |cs| ==> ValidDenom(cs[i].denom)
  }

  lemma ValidIsLower(cs: Coins)
    requires ValidDenoms(cs)
    ensures LowerDenoms(cs)
  {
    forall i | 0 <= i < |cs| ensures IsLower(cs[i].denom) {
      assert ValidDenom(cs[i].denom);
    }
  }

  predicate LowerDenoms(cs: Coins) {
    forall i :: 0 <= i < |cs| ==> IsLower(cs[i].denom)
  }

  lemma {:induction false} ValidAfterMeans(low: Bytes, cs: Coins)
    ensures ValidAfter(low, cs) <==> Canonical(cs) && LowerDenoms(cs) && Above(low, cs)
    decreases cs
  {
    if cs != [] {
      ValidAfterMeans(cs[0].denom, cs[1..]);
      assert cs == [cs[0]] + cs[1..];
      if Canonical(cs) && LowerDenoms(cs) {
        assert forall i :: 0 <= i < |cs[1..]| ==> cs[1..][i] == cs[i + 1];
      }
    }
  }

  lemma IsValidMeans(cs: Coins)
    ensures IsValid(cs) <==> Canonical(cs) && LowerDenoms(cs) && (cs != [] ==> ValidDenom(cs[0].denom))
  {
    if cs != [] {
      ValidAfterMeans(cs[0].denom, cs[1..]);
      assert cs == [cs[0]] + cs[1..];
      if Canonical(cs) && LowerDenoms(cs) {
        assert forall i :: 0 <= i < |cs[1..]| ==> cs[1..][i] == cs[i + 1];
      }
    }
  }

  ghost predicate HasDenom(cs: Coins, d: Bytes) {
    exists i :: 0 <= i < |cs| && cs[i].denom == d
  }

  lemma {:induction false} TotalHasDenom(cs: Coins, d: Bytes)
    requires Total(cs, d) != 0
    ensures HasDenom(cs, d)
  {
    if cs[0].denom != d {
      TotalHasDenom(cs[1..], d);
      var i :| 0 <= i < |cs[1..]| && cs[1..][i].denom == d;
      assert cs[i + 1].denom == d;
    }
  }

  lemma PositiveTotals(cs: Coins)
    requires Sorted(cs)
    ensures (forall d :: Total(cs, d) >= 0) && ZeroFree(cs) ==> AllPositive(cs)
  {
    forall i | 0 <= i < |cs| ensures Total(cs, cs[i].denom) == cs[i].amount {
      TotalAt(cs, i);
    }
  }

  lemma {:induction false} CanonicalTotals(cs: Coins, d: Bytes)
    requires AllPositive(cs)
    ensures Total(cs, d) >= 0 && (HasDenom(cs, d) ==> Total(cs, d) > 0)
  {
    if cs != [] {
      CanonicalTotals(cs[1..], d);
      if HasDenom(cs, d) && cs[0].denom != d {
        var i :| 0 <= i < |cs| && cs[i].denom == d;
        assert cs[1..][i - 1].denom == d;
      }
    }
  }

  // Every denomination of a sum or difference comes from an operand.
  lemma DenomFrom(a: Coins, b: Coins, r: Coins, i: nat)
    requires Sorted(r) && ZeroFree(r) && i < |r|
    requires Total(r, r[i].denom) == Total(a, r[i].denom) + Total(b, r[i].denom) ||
             Total(r, r[i].denom) == Total(a, r[i].denom) - Total(b, r[i].denom)
    ensures HasDenom(a, r[i].denom) || HasDenom(b, r[i].denom)
  {
    TotalAt(r, i);
    if Total(a, r[i].denom) != 0 { TotalHasDenom(a, r[i].denom); }
    if Total(b, r[i].denom) != 0 { TotalHasDenom(b, r[i].denom); }
  }

  lemma SumIsCanonical(a: Coins, b: Coins)
    requires Canonical(a) && Canonical(b)
    ensures Canonical(Add(a, b))
  {
    AddShape(a, b);
    forall d ensures Total(Add(a, b), d) >= 0 {
      AddTotal(a, b, d);
      CanonicalTotals(a, d);
      CanonicalTotals(b, d);
    }
    PositiveTotals(Add(a, b));
  }

  lemma HeadOfSumIsLeast(a: Coins, b: Coins)
    requires Canonical(a) && Canonical(b) && a != [] && b != []
    ensures Add(a, b) != [] && Add(a, b)[0].denom == if AtMost(b[0].denom, a[0].denom) then b[0].denom else a[0].denom
  {
    LessTotal(a[0].denom, b[0].denom);
    if Less(a[0].denom, b[0].denom) { LessAsymmetric(a[0].denom, b[0].denom); }
  }

  lemma LowerSum(a: Coins, b: Coins)
    requires Canonical(a) && Canonical(b) && LowerDenoms(a) && LowerDenoms(b)
    ensures Canonical(Add(a, b)) && LowerDenoms(Add(a, b))
  {
    SumIsCanonical(a, b);
    var r := Add(a, b);
    forall i | 0 <= i < |r| ensures IsLower(r[i].denom) {
      AddTotal(a, b, r[i].denom);
      DenomFrom(a, b, r, i);
    }
  }

  // Add's contract: valid lists have a valid sum.
  lemma AddKeepsValid(a: Coins, b: Coins)
    requires IsValid(a) && IsValid(b)
    ensures IsValid(Add(a, b))
  {
    IsValidMeans(a);
    IsValidMeans(b);
    LowerSum(a, b);
    var r := Add(a, b);
    if a != [] && b != [] {
      HeadOfSumIsLeast(a, b);
    } else {
      NonZeroSame(a);
      NonZeroSame(b);
    }
    IsValidMeans(r);
  }

  lemma {:induction false} NonZeroSame(cs: Coins)
    requires ZeroFree(cs)
    ensures NonZero(cs) == cs
  {
    if cs != [] { NonZeroSame(cs[1..]); }
  }

  // The first denomination, in byte order, that the two lists hold in different amounts.
  ghost predicate FirstDifference(a: Coins, b: Coins, d: Bytes) {
    Total(a, d) != Total(b, d) && forall e :: Less(e, d) ==> Total(a, e) == Total(b, e)
  }

  // Sub's documented contract fails: dropping the first coin can leave one whose denomination the
  // regular expression, never applied to it before, rejects. {1aaa,1b} - {1aaa} is {1b}.
  lemma SubCanBeInvalid()
    ensures var a := [Coin([97, 97, 97], 1), Coin([98], 1)]; var b := [Coin([97, 97, 97], 1)];
            IsValid(a) && IsValid(b) && Sub(a, b) == [Coin([98], 1)] && !AnyNegative(Sub(a, b)) && !IsValid(Sub(a, b))
  {
    var a := [Coin([97, 97, 97], 1), Coin([98], 1)];
    var b := [Coin([97, 97, 97], 1)];
    assert a[1..] == [Coin([98], 1)] && a[1..][1..] == [] && b[1..] == [];
    assert Negative(b) == [Coin([97, 97, 97], -1)] + Negative([]);
    assert Add(a, Negative(b)) == Kept(Coin([97, 97, 97], 0)) + Add(a[1..], Negative(b)[1..]);
    assert NonZero([Coin([98], 1)]) == [Coin([98], 1)] + NonZero([]);
    assert Sub(a, b) == [Coin([98], 1)];
  }

  // Exactly when a difference of valid lists that is not short is valid again.
  lemma SubValidIff(a: Coins, b: Coins)
    requires IsValid(a) && IsValid(b) && forall d :: Total(a, d) >= Total(b, d)
    ensures IsValid(Sub(a, b)) <==> forall d :: FirstDifference(a, b, d) ==> ValidDenom(d)
  {
    IsValidMeans(a);
    IsValidMeans(b);
    SubShape(a, b);
    var r := Sub(a, b);
    forall d ensures Total(r, d) == Total(a, d) - Total(b, d) {
      SubTotal(a, b, d);
    }
    PositiveTotals(r);
    forall i | 0 <= i < |r| ensures IsLower(r[i].denom) {
      DenomFrom(a, b, r, i);
    }
    IsValidMeans(r);
    FirstIsHead(a, b, r);
  }

  lemma FirstIsHead(a: Coins, b: Coins, r: Coins)
    requires Sorted(r) && ZeroFree(r) && forall d :: Total(r, d) == Total(a, d) - Total(b, d)
    ensures forall d :: FirstDifference(a, b, d) <==> r != [] && d == r[0].denom
  {
    if r != [] {
      TotalAt(r, 0);
      forall e | Less(e, r[0].denom) ensures Total(a, e) == Total(b, e) {
        TotalAbsent(r, e);
        assert Total(r, e) == Total(a, e) - Total(b, e);
      }
      assert Total(r, r[0].denom) == Total(a, r[0].denom) - Total(b, r[0].denom);
    }
    forall d | FirstDifference(a, b, d) ensures r != [] && d == r[0].denom {
      assert Total(r, d) == Total(a, d) - Total(b, d);
      TotalHasDenom(r, d);
      var i :| 0 <= i < |r| && r[i].denom == d;
      TotalAt(r, i);
      TotalAt(r, 0);
      assert Total(r, r[0].denom) == Total(a, r[0].denom) - Total(b, r[0].denom);
    }
  }

  // ---------- Amount by amount ----------

  // The loops of MulDec, MulDecTruncate, QuoDec and the like.
  function MapCoins(cs: Coins, f: int -> int): Coins {
    if cs == [] then [] else [Coin(cs[0].denom, f(cs[0].amount))] + MapCoins(cs[1..], f)
  }

  lemma {:induction false} MapCoinsDenoms(cs: Coins, f: int -> int)
    ensures |MapCoins(cs, f)| == |cs| && forall i :: 0 <= i < |cs| ==> MapCoins(cs, f)[i] == Coin(cs[i].denom, f(cs[i].amount))
    ensures ValidDenoms(MapCoins(cs, f)) <==> ValidDenoms(cs)
  {
    if cs != [] {
      MapCoinsDenoms(cs[1..], f);
      var r := MapCoins(cs, f);
      assert r[1..] == MapCoins(cs[1..], f);
      assert forall i :: 0 < i < |cs| ==> r[i] == r[1..][i - 1] && cs[i] == cs[1..][i - 1];
      SameDenoms(cs, r);
    }
  }

  lemma SameDenoms(a: Coins, b: Coins)
    requires |a| == |b| && forall i :: 0 <= i < |a| ==> a[i].denom == b[i].denom
    ensures ValidDenoms(a) <==> ValidDenoms(b)
  {}

  lemma {:induction false} MapCoinsTotal(cs: Coins, f: int -> int, d: Bytes)
    requires Sorted(cs) && f(0) == 0
    ensures Sorted(MapCoins(cs, f)) && Total(MapCoins(cs, f), d) == f(Total(cs, d))
  {
    if cs != [] {
      MapCoinsTotal(cs[1..], f, d);
      TailAbove(cs[0].denom, cs);
      TotalAbsent(cs[1..], cs[0].denom);
      assert MapCoins(cs, f)[1..] == MapCoins(cs[1..], f);
    }
  }

  // Subtracting a list of zeros, in whatever order, changes nothing.
  lemma {:induction false} SubZeros(a: Coins, zeros: Coins)
    requires forall i :: 0 <= i < |zeros| ==> zeros[i].amount == 0
    ensures Sub(a, zeros) == NonZero(a)
    decreases |a| + |zeros|
  {
    if zeros == [] {
    } else if a == [] {
      SubZeros([], zeros[1..]);
    } else {
      SubZeros(a[1..], zeros);
      SubZeros(a[1..], zeros[1..]);
      SubZeros(a, zeros[1..]);
      assert Negative(zeros)[1..] == Negative(zeros[1..]);
    }
  }
}
