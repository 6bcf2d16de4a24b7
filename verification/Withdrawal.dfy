// types/dec_coin.go (TruncateDecimal) and x/distribution/keeper/keeper.go: paying out a validator's
// commission in whole coins, the change staying behind.

module Withdrawal {
  import opened Bytes
  import opened Calls
  import opened Coins
  import opened Decimal
  import opened Bank

  // ---------- TruncateDecimal ----------

  function Whole(c: Coin): Coin { Coin(c.denom, ChopTruncate(c.amount)) }

  function Rest(c: Coin): Coin { Coin(c.denom, c.amount - NewDec(ChopTruncate(c.amount))) }

  function Truncated(cs: Coins): (r: Coins)
    ensures |r| == |cs|
  {
    if cs == [] then [] else Truncated(cs[..|cs| - 1]) + [Whole(cs[|cs| - 1])]
  }

  function Change(cs: Coins): Coins {
    if cs == [] then [] else Add(Change(cs[..|cs| - 1]), [Rest(cs[|cs| - 1])])
  }

  // NewCoin panics on a denomination that is not valid and on a negative amount.
  predicate Coinable(c: Coin) {
    ValidDenom(c.denom) && ChopTruncate(c.amount) >= 0
  }

  method TruncateDecimal(coins: Coins) returns (panicked: bool, whole: Coins, change: Coins)
    ensures panicked <==> exists i :: 0 <= i < |coins| && !Coinable(coins[i])
    ensures !panicked ==> whole == Truncated(coins) && change == Change(coins)
  {
    whole, change := [], [];
    for i := 0 to |coins|
      invariant whole == Truncated(coins[..i]) && change == Change(coins[..i])
      invariant forall j :: 0 <= j < i ==> Coinable(coins[j])
    {
      if !Coinable(coins[i]) { return true, [], []; }
      assert coins[..i + 1] == coins[..i] + [coins[i]];
      TruncateSnoc(coins[..i], coins[i]);
      whole := whole + [Whole(coins[i])];
      change := SafeAdd(change, [Rest(coins[i])]);
    }
    assert coins[..|coins|] == coins;
    panicked := false;
  }

  lemma TruncateSnoc(cs: Coins, c: Coin)
    ensures Truncated(cs + [c]) == Truncated(cs) + [Whole(c)] && Change(cs + [c]) == Add(Change(cs), [Rest(c)])
  {
    assert (cs + [c])[..|cs|] == cs;
  }

  // Whole coins and change are what there was, in every denomination and for every list.
  lemma {:induction false} TruncationConserves(cs: Coins, d: Bytes)
    ensures UNIT * Total(Truncated(cs), d) + Total(Change(cs), d) == Total(cs, d)
  {
    if cs != [] {
      var init, c := cs[..|cs| - 1], cs[|cs| - 1];
      TruncationConserves(init, d);
      assert cs == init + [c];
      TotalConcat(init, [c], d);
      TotalConcat(Truncated(init), [Whole(c)], d);
      AddTotal(Change(init), [Rest(c)], d);
      OneTotal(c, d);
      OneTotal(Whole(c), d);
      OneTotal(Rest(c), d);
    }
  }

  // Each denomination is paid down to its whole part, and less than one stays.
  lemma {:induction false} TruncationIsFloor(cs: Coins, d: Bytes)
    requires Sorted(cs) && forall i :: 0 <= i < |cs| ==> cs[i].amount >= 0
    ensures Total(Truncated(cs), d) == Total(cs, d) / UNIT && Total(Change(cs), d) == Total(cs, d) % UNIT
  {
    if cs != [] {
      var init, c := cs[..|cs| - 1], cs[|cs| - 1];
      SortedSplit(cs, |cs| - 1);
      TruncationIsFloor(init, d);
      if d == c.denom {
        LessIrreflexive(d);
        TotalElsewhere(init, d);
      }
      assert cs == init + [c];
      TotalConcat(init, [c], d);
      TotalConcat(Truncated(init), [Whole(c)], d);
      AddTotal(Change(init), [Rest(c)], d);
      OneTotal(c, d);
      OneTotal(Whole(c), d);
      OneTotal(Rest(c), d);
    }
  }

  lemma OneTotal(c: Coin, d: Bytes)
    ensures Total([c], d) == if c.denom == d then c.amount else 0
  {
    assert [c][1..] == [];
  }

  lemma {:induction false} TruncatedAt(cs: Coins, i: nat)
    requires i < |cs|
    ensures Truncated(cs)[i] == Whole(cs[i])
  {
    if i < |cs| - 1 { TruncatedAt(cs[..|cs| - 1], i); }
  }

  lemma {:induction false} SortedAlike(a: Coins, b: Coins)
    requires |a| == |b| && forall i :: 0 <= i < |a| ==> a[i].denom == b[i].denom
    ensures Sorted(a) <==> Sorted(b)
  {
    if |a| > 1 {
      assert forall i :: 0 <= i < |a| - 1 ==> a[1..][i] == a[i + 1] && b[1..][i] == b[i + 1];
      SortedAlike(a[1..], b[1..]);
    }
  }

  // The whole coins are valid exactly when no denomination holds less than one: a zero stays in the list.
  lemma TruncatedValidIff(cs: Coins)
    requires Sound(cs)
    ensures IsValid(Truncated(cs)) <==> forall i :: 0 <= i < |cs| ==> cs[i].amount >= UNIT
  {
    var r := Truncated(cs);
    forall i | 0 <= i < |cs| ensures r[i] == Whole(cs[i]) && (r[i].amount > 0 <==> cs[i].amount >= UNIT) {
      TruncatedAt(cs, i);
      WholePositive(cs[i].amount);
    }
    SortedAlike(r, cs);
    IsValidMeans(r);
    IsValidMeans(cs);
  }

  lemma WholePositive(a: Dec)
    requires a > 0
    ensures ChopTruncate(a) > 0 <==> a >= UNIT
    ensures ChopTruncate(a) >= 0
  {}

  // ---------- WithdrawValidatorCommission ----------

  // The state of one validator's withdrawal.
  datatype Purse = Purse(commission: Coins, outstanding: Coins, accounts: Accounts)

  method WithdrawValidatorCommission(p: Purse, to: Addr) returns (r: Outcome, p': Purse)
    ensures r.Done? ==> exists i :: 0 <= i < |p.commission| && p.commission[i].amount != 0
    ensures r.Done? ==> p' == Paid(p, to)
    ensures Sound(p.commission) && AllSound(p.accounts) && !AnyNegative(Sub(p.outstanding, Due(p))) ==>
            (r.Done? <==> p.commission != [] && !Mixed(p.commission))
  {
    p' := p;
    if IsZero(p.commission) { return Failed, p; }
    var panicked, coins, remainder := TruncateDecimal(p.commission);
    if panicked {
      SoundIsCoinable(p.commission);
      return Panicked, p;
    }
    var outstanding := Sub(p.outstanding, Due(p));
    if AnyNegative(outstanding) { return Panicked, p; }
    p' := p.(commission := remainder, outstanding := outstanding);
    if !IsZero(coins) {
      if !Giving(p.accounts, to, coins).Done? {
        MixedFails(p.accounts, to, p.commission);
        return Failed, p;
      }
      p' := p'.(accounts := Gave(p.accounts, to, coins));
    }
    MixedFails(p.accounts, to, p.commission);
    r := Done;
  }

  function Due(p: Purse): Coins {
    MapCoins(Truncated(p.commission), a => NewDec(a))
  }

  function Paid(p: Purse, to: Addr): Purse {
    var coins := Truncated(p.commission);
    Purse(Change(p.commission), Sub(p.outstanding, Due(p)), if IsZero(coins) then p.accounts else Gave(p.accounts, to, coins))
  }

  // Some denomination holds at least one whole coin and some other less than one.
  predicate Mixed(cs: Coins) {
    (exists i :: 0 <= i < |cs| && cs[i].amount >= UNIT) && exists i :: 0 <= i < |cs| && cs[i].amount < UNIT
  }

  lemma SoundIsCoinable(cs: Coins)
    requires exists i :: 0 <= i < |cs| && !Coinable(cs[i])
    ensures !Sound(cs)
  {
    var i :| 0 <= i < |cs| && !Coinable(cs[i]);
    if Sound(cs) { WholePositive(cs[i].amount); }
  }

  // Whole coins are refused by the bank exactly when the commission is mixed.
  lemma MixedFails(accounts: Accounts, to: Addr, cs: Coins)
    ensures Sound(cs) && AllSound(accounts) ==>
            (Mixed(cs) <==> !IsZero(Truncated(cs)) && !Giving(accounts, to, Truncated(cs)).Done?)
  {
    if Sound(cs) && AllSound(accounts) {
      TruncatedValidIff(cs);
      ZeroIff(cs);
      if IsValid(Truncated(cs)) {
        TruncatedSound(cs);
        GivingSucceeds(accounts, to, Truncated(cs));
      }
    }
  }

  lemma ZeroIff(cs: Coins)
    requires Sound(cs)
    ensures IsZero(Truncated(cs)) <==> forall i :: 0 <= i < |cs| ==> cs[i].amount < UNIT
  {
    forall i | 0 <= i < |cs| ensures Truncated(cs)[i].amount == 0 <==> cs[i].amount < UNIT {
      TruncatedAt(cs, i);
      WholePositive(cs[i].amount);
    }
  }

  lemma TruncatedSound(cs: Coins)
    requires Sound(cs) && IsValid(Truncated(cs))
    ensures Sound(Truncated(cs))
  {
    IsValidMeans(Truncated(cs));
    forall i | 0 <= i < |cs| ensures ValidDenom(Truncated(cs)[i].denom) {
      TruncatedAt(cs, i);
    }
  }

  // A withdrawal that succeeds credits whole coins for exactly what leaves the commission, and what is
  // outstanding falls by the same.
  lemma WithdrawalConserves(p: Purse, to: Addr, d: Bytes)
    requires Sorted(p.commission)
    ensures var q := Paid(p, to); var credited := Total(CoinsOf(q.accounts, to), d) - Total(CoinsOf(p.accounts, to), d);
            UNIT * credited + Total(q.commission, d) == Total(p.commission, d) &&
            UNIT * credited + Total(q.outstanding, d) == Total(p.outstanding, d)
  {
    var coins := Truncated(p.commission);
    TruncationConserves(p.commission, d);
    forall i | 0 <= i < |coins| ensures coins[i].denom == p.commission[i].denom {
      TruncatedAt(p.commission, i);
    }
    SortedAlike(coins, p.commission);
    MapCoinsTotal(coins, a => NewDec(a), d);
    SubTotal(p.outstanding, Due(p), d);
    AddTotal(CoinsOf(p.accounts, to), coins, d);
    if IsZero(coins) { ZeroTotal(coins, d); }
  }

  // Half a coin of one denomination blocks the withdrawal of another.
  lemma WithdrawalCanFail(accounts: Accounts, to: Addr)
    requires AllSound(accounts)
    ensures var cs := [Coin([97, 97, 97], UNIT / 2), Coin([98, 98, 98], UNIT)];
            Sound(cs) && Mixed(cs) && Giving(accounts, to, Truncated(cs)).Failed?
  {
    var cs := [Coin([97, 97, 97], UNIT / 2), Coin([98, 98, 98], UNIT)];
    assert cs[0].amount < UNIT && cs[1].amount >= UNIT;
    assert cs[1..] == [Coin([98, 98, 98], UNIT)];
    assert Less(cs[0].denom, cs[1].denom) && Sorted(cs[1..]);
    assert Sorted(cs);
    MixedFails(accounts, to, cs);
  }
}
