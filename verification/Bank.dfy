// x/bank/keeper.go, x/bank/msgs.go, x/auth/ante.go: balances, transfers, and the fees and sequence
// numbers of the transactions that carry them.

module Bank {
  import opened Bytes
  import opened Calls
  import opened Coins
  import opened MapSum
  import Text

  type Addr = Bytes

  datatype Account = Account(coins: Coins, sequence: nat)

  type Accounts = map<Addr, Account>

  // SpendableCoins at the time of the block, for each account: all its coins unless it is vesting.
  // None is a panic.
  type Spending = (Addr, Coins) -> Option<Coins>

  // ---------- Accounts ----------

  function CoinsOf(accounts: Accounts, a: Addr): Coins {
    if a in accounts then accounts[a].coins else []
  }

  function SequenceOf(accounts: Accounts, a: Addr): nat {
    if a in accounts then accounts[a].sequence else 0
  }

  // A new account starts with sequence 0.
  function WithCoins(accounts: Accounts, a: Addr, coins: Coins): Accounts {
    accounts[a := Account(coins, SequenceOf(accounts, a))]
  }

  ghost function Balances(accounts: Accounts, d: Bytes): map<Addr, int> {
    map a | a in accounts :: Total(accounts[a].coins, d)
  }

  ghost function Supply(accounts: Accounts, d: Bytes): int {
    Sum(Balances(accounts, d))
  }

  lemma SupplyWith(accounts: Accounts, a: Addr, coins: Coins, d: Bytes)
    ensures Supply(WithCoins(accounts, a, coins), d) == Supply(accounts, d) - Total(CoinsOf(accounts, a), d) + Total(coins, d)
  {
    assert Balances(WithCoins(accounts, a, coins), d) == Balances(accounts, d)[a := Total(coins, d)];
    SumSet(Balances(accounts, d), a, Total(coins, d));
  }

  // ---------- Transfers on values ----------

  function Took(accounts: Accounts, a: Addr, amt: Coins): Accounts {
    WithCoins(accounts, a, Sub(CoinsOf(accounts, a), amt))
  }

  function Gave(accounts: Accounts, a: Addr, amt: Coins): Accounts {
    WithCoins(accounts, a, Add(CoinsOf(accounts, a), amt))
  }

  lemma TookSupply(accounts: Accounts, a: Addr, amt: Coins, d: Bytes)
    ensures Supply(Took(accounts, a, amt), d) == Supply(accounts, d) - Total(amt, d)
  {
    SupplyWith(accounts, a, Sub(CoinsOf(accounts, a), amt), d);
    SubTotal(CoinsOf(accounts, a), amt, d);
  }

  lemma GaveSupply(accounts: Accounts, a: Addr, amt: Coins, d: Bytes)
    ensures Supply(Gave(accounts, a, amt), d) == Supply(accounts, d) + Total(amt, d)
  {
    SupplyWith(accounts, a, Add(CoinsOf(accounts, a), amt), d);
    AddTotal(CoinsOf(accounts, a), amt, d);
  }

  // How subtractCoins ends. A panic is SpendableCoins', or Sub's when more is spendable than there is.
  function Taking(spending: Spending, accounts: Accounts, a: Addr, amt: Coins): Outcome {
    var spendable := if a in accounts then spending(a, accounts[a].coins) else Some([]);
    if !IsValid(amt) then Failed
    else if spendable.None? then Panicked
    else if AnyNegative(Sub(spendable.value, amt)) then Failed
    else if AnyNegative(Sub(CoinsOf(accounts, a), amt)) then Panicked
    else if !IsValid(Sub(CoinsOf(accounts, a), amt)) then Failed
    else Done
  }

  function Giving(accounts: Accounts, a: Addr, amt: Coins): Outcome {
    var coins := Add(CoinsOf(accounts, a), amt);
    if !IsValid(amt) || AnyNegative(coins) || !IsValid(coins) then Failed else Done
  }

  function Sending(spending: Spending, accounts: Accounts, from: Addr, to: Addr, amt: Coins): Outcome {
    var took := Taking(spending, accounts, from, amt);
    if took.Done? then Giving(Took(accounts, from, amt), to, amt) else took
  }

  function Sent(accounts: Accounts, from: Addr, to: Addr, amt: Coins): Accounts {
    Gave(Took(accounts, from, amt), to, amt)
  }

  // A transfer moves coins, from an account to itself included.
  lemma SentConserves(accounts: Accounts, from: Addr, to: Addr, amt: Coins, d: Bytes)
    ensures Supply(Sent(accounts, from, to, amt), d) == Supply(accounts, d)
  {
    TookSupply(accounts, from, amt, d);
    GaveSupply(Took(accounts, from, amt), to, amt, d);
  }

  lemma SentBalances(accounts: Accounts, from: Addr, to: Addr, amt: Coins, a: Addr, d: Bytes)
    ensures Total(CoinsOf(Sent(accounts, from, to, amt), a), d) ==
            Total(CoinsOf(accounts, a), d) - (if a == from then Total(amt, d) else 0) + (if a == to then Total(amt, d) else 0)
  {
    SubTotal(CoinsOf(accounts, from), amt, d);
    AddTotal(CoinsOf(Took(accounts, from, amt), to), amt, d);
  }

  // ---------- When a transfer cannot fail ----------

  // Stronger than IsValid, which looks at the first denomination only.
  predicate Sound(cs: Coins) {
    Canonical(cs) && ValidDenoms(cs)
  }

  predicate AllSound(accounts: Accounts) {
    forall a :: a in accounts ==> Sound(accounts[a].coins)
  }

  lemma SoundIsValid(cs: Coins)
    requires Sound(cs)
    ensures IsValid(cs)
  {
    IsValidMeans(cs);
  }

  lemma SoundSub(a: Coins, b: Coins)
    requires Sound(a) && IsValid(b) && !AnyNegative(Sub(a, b))
    ensures Sound(Sub(a, b)) && Sound(b) && forall d :: Total(a, d) >= Total(b, d)
  {
    IsValidMeans(b);
    SubShape(a, b);
    SafeSubFlag(a, b);
    var r := Sub(a, b);
    forall d ensures Total(r, d) == Total(a, d) - Total(b, d) >= 0 {
      SubTotal(a, b, d);
    }
    PositiveTotals(r);
    forall i | 0 <= i < |r| ensures ValidDenom(r[i].denom) {
      TotalAt(r, i);
      CanonicalTotals(b, r[i].denom);
      TotalHasDenom(a, r[i].denom);
    }
    forall i | 0 <= i < |b| ensures ValidDenom(b[i].denom) {
      TotalAt(b, i);
      TotalHasDenom(a, b[i].denom);
    }
  }

  lemma SoundAdd(a: Coins, b: Coins)
    requires Sound(a) && Sound(b)
    ensures Sound(Add(a, b))
  {
    SumIsCanonical(a, b);
    var r := Add(a, b);
    forall i | 0 <= i < |r| ensures ValidDenom(r[i].denom) {
      AddTotal(a, b, r[i].denom);
      DenomFrom(a, b, r, i);
    }
  }

  lemma TakingSucceeds(spending: Spending, accounts: Accounts, a: Addr, amt: Coins)
    requires AllSound(accounts) && IsValid(amt)
    requires forall cs :: spending(a, cs) == Some(cs)
    requires forall d :: Total(CoinsOf(accounts, a), d) >= Total(amt, d)
    ensures Taking(spending, accounts, a, amt).Done? && AllSound(Took(accounts, a, amt)) && Sound(amt)
  {
    IsValidMeans(amt);
    SafeSubFlag(CoinsOf(accounts, a), amt);
    SoundSub(CoinsOf(accounts, a), amt);
    SoundIsValid(Sub(CoinsOf(accounts, a), amt));
  }

  lemma GivingSucceeds(accounts: Accounts, a: Addr, amt: Coins)
    requires AllSound(accounts) && Sound(amt)
    ensures Giving(accounts, a, amt).Done? && AllSound(Gave(accounts, a, amt))
  {
    SoundIsValid(amt);
    SoundAdd(CoinsOf(accounts, a), amt);
    SoundIsValid(Add(CoinsOf(accounts, a), amt));
  }

  // Holding enough is not enough when an account's later denominations are not valid ones: after the
  // transfer such a denomination can come first, and the balance is refused.
  lemma CoveredTransferCanFail(spending: Spending, a: Addr)
    requires forall cs :: spending(a, cs) == Some(cs)
    ensures var amt := [Coin([97, 97, 97], 1)]; var accounts := map[a := Account([Coin([97, 97, 97], 1), Coin([98], 1)], 0)];
            IsValid(accounts[a].coins) && IsValid(amt) && !AnyNegative(Sub(accounts[a].coins, amt)) &&
            Taking(spending, accounts, a, amt).Failed?
  {
    SubCanBeInvalid();
  }

  // Exactly when a covered transfer out of a valid balance succeeds.
  lemma TakingIff(spending: Spending, accounts: Accounts, a: Addr, amt: Coins)
    requires IsValid(CoinsOf(accounts, a)) && IsValid(amt)
    requires forall cs :: spending(a, cs) == Some(cs)
    requires forall d :: Total(CoinsOf(accounts, a), d) >= Total(amt, d)
    ensures Taking(spending, accounts, a, amt).Done? <==>
            forall d :: FirstDifference(CoinsOf(accounts, a), amt, d) ==> ValidDenom(d)
  {
    IsValidMeans(CoinsOf(accounts, a));
    IsValidMeans(amt);
    SafeSubFlag(CoinsOf(accounts, a), amt);
    SubValidIff(CoinsOf(accounts, a), amt);
  }

  // Exactly when valid coins can be given to an account whose balance may have lost its first
  // denomination to a fee: the new first denomination must be a valid one.
  lemma GivingIff(accounts: Accounts, a: Addr, amt: Coins)
    requires Canonical(CoinsOf(accounts, a)) && LowerDenoms(CoinsOf(accounts, a)) && IsValid(amt) && amt != []
    ensures var coins := CoinsOf(accounts, a);
            Giving(accounts, a, amt).Done? <==>
            coins == [] || ValidDenom(coins[0].denom) || AtMost(amt[0].denom, coins[0].denom)
  {
    var coins := CoinsOf(accounts, a);
    IsValidMeans(amt);
    LowerSum(coins, amt);
    if coins == [] {
      NonZeroSame(amt);
    } else {
      HeadOfSumIsLeast(coins, amt);
    }
    IsValidMeans(Add(coins, amt));
  }

  // How a subtraction ends, by amounts: it takes valid coins that are covered both by what is spendable and by
  // what is there, and must leave a valid list.
  lemma TakingMeans(spending: Spending, accounts: Accounts, a: Addr, amt: Coins)
    requires a in accounts && Sorted(accounts[a].coins)
    requires spending(a, accounts[a].coins).Some? ==> Sorted(spending(a, accounts[a].coins).value)
    ensures var coins := accounts[a].coins; var spendable := spending(a, coins); var r := Taking(spending, accounts, a, amt);
            (r.Done? <==> IsValid(amt) && spendable.Some? && (forall d :: Total(amt, d) <= Total(spendable.value, d)) &&
                          (forall d :: Total(amt, d) <= Total(coins, d)) && IsValid(Sub(coins, amt))) &&
            (r.Panicked? <==> IsValid(amt) && (spendable.None? || ((forall d :: Total(amt, d) <= Total(spendable.value, d)) &&
                                                                  exists d :: Total(amt, d) > Total(coins, d))))
  {
    var coins := accounts[a].coins;
    var spendable := spending(a, coins);
    if IsValid(amt) {
      IsValidMeans(amt);
      SafeSubFlag(coins, amt);
      if spendable.Some? { SafeSubFlag(spendable.value, amt); }
    }
  }

  // From an account that is not vesting and holds enough, a transfer always succeeds.
  lemma SendingSucceeds(spending: Spending, accounts: Accounts, from: Addr, to: Addr, amt: Coins)
    requires AllSound(accounts) && IsValid(amt)
    requires forall cs :: spending(from, cs) == Some(cs)
    requires forall d :: Total(CoinsOf(accounts, from), d) >= Total(amt, d)
    ensures Sending(spending, accounts, from, to, amt).Done?
  {
    TakingSucceeds(spending, accounts, from, amt);
    GivingSucceeds(Took(accounts, from, amt), to, amt);
  }

  // A transfer that succeeds keeps every account sound and was covered.
  lemma SendingSound(spending: Spending, accounts: Accounts, from: Addr, to: Addr, amt: Coins)
    requires AllSound(accounts) && Sending(spending, accounts, from, to, amt).Done?
    ensures AllSound(Sent(accounts, from, to, amt)) && Sound(amt)
    ensures forall d :: Total(CoinsOf(accounts, from), d) >= Total(amt, d)
  {
    SoundSub(CoinsOf(accounts, from), amt);
    GivingSucceeds(Took(accounts, from, amt), to, amt);
  }

  // ---------- Inputs and outputs ----------

  // An Input or an Output.
  datatype Entry = Entry(addr: Addr, coins: Coins)

  predicate ValidEntry(e: Entry) {
    |e.addr| != 0 && IsValid(e.coins) && e.coins != [] && AllPositive(e.coins)
  }

  predicate ValidEntries(es: seq<Entry>) {
    forall i :: 0 <= i < |es| ==> ValidEntry(es[i])
  }

  function SumEntries(es: seq<Entry>): Coins {
    if es == [] then [] else Add(SumEntries(es[..|es| - 1]), es[|es| - 1].coins)
  }

  function EntriesTotal(es: seq<Entry>, d: Bytes): int {
    if es == [] then 0 else EntriesTotal(es[..|es| - 1], d) + Total(es[|es| - 1].coins, d)
  }

  lemma {:induction false} SumEntriesTotal(es: seq<Entry>, d: Bytes)
    ensures Total(SumEntries(es), d) == EntriesTotal(es, d)
  {
    if es != [] {
      SumEntriesTotal(es[..|es| - 1], d);
      AddTotal(SumEntries(es[..|es| - 1]), es[|es| - 1].coins, d);
    }
  }

  lemma {:induction false} SumEntriesCanonical(es: seq<Entry>)
    requires ValidEntries(es)
    ensures Canonical(SumEntries(es))
  {
    if es != [] {
      SumEntriesCanonical(es[..|es| - 1]);
      IsValidMeans(es[|es| - 1].coins);
      SumIsCanonical(SumEntries(es[..|es| - 1]), es[|es| - 1].coins);
    }
  }

  // The amounts put in are the amounts taken out.
  ghost predicate Balanced(ins: seq<Entry>, outs: seq<Entry>) {
    forall d :: EntriesTotal(ins, d) == EntriesTotal(outs, d)
  }

  lemma BalancedWhenEqual(ins: seq<Entry>, outs: seq<Entry>)
    requires ValidEntries(ins) && ValidEntries(outs)
    ensures SumEntries(ins) == SumEntries(outs) <==> Balanced(ins, outs)
  {
    SumEntriesCanonical(ins);
    SumEntriesCanonical(outs);
    forall d ensures Total(SumEntries(ins), d) == EntriesTotal(ins, d) && Total(SumEntries(outs), d) == EntriesTotal(outs, d) {
      SumEntriesTotal(ins, d);
      SumEntriesTotal(outs, d);
    }
    if Balanced(ins, outs) {
      forall d ensures Total(SumEntries(ins), d) == Total(SumEntries(outs), d) {
        assert EntriesTotal(ins, d) == EntriesTotal(outs, d);
      }
      SameCoins(SumEntries(ins), SumEntries(outs));
    }
  }

  // The first coin at which two lists of one length differ has another denomination in each.
  ghost predicate Clash(a: Coins, b: Coins) {
    |a| == |b| && exists i :: 0 <= i < |a| && a[..i] == b[..i] && a[i].denom != b[i].denom
  }

  // Comparing coins of different denominations panics.
  method CompareCoins(a: Coins, b: Coins) returns (r: Outcome)
    requires |a| == |b|
    ensures (r.Done? <==> a == b) && (r.Panicked? <==> Clash(a, b))
  {
    for i := 0 to |a|
      invariant a[..i] == b[..i]
    {
      if a[i].denom != b[i].denom { return Panicked; }
      if a[i].amount != b[i].amount { return Failed; }
    }
    return Done;
  }

  // Coins.IsEqual sorts both lists first.
  method IsEqual(coins: Coins, coinsB: Coins) returns (r: Outcome)
    ensures r.Done? <==> Text.SortCoins(coins) == Text.SortCoins(coinsB)
    ensures r.Panicked? <==> Clash(Text.SortCoins(coins), Text.SortCoins(coinsB))
  {
    if |coins| != |coinsB| { return Failed; }
    r := CompareCoins(Text.SortCoins(coins), Text.SortCoins(coinsB));
  }

  method AddEntries(es: seq<Entry>) returns (ok: bool, total: Coins)
    ensures ok == ValidEntries(es) && (ok ==> total == SumEntries(es))
  {
    ok, total := true, [];
    for i := 0 to |es|
      invariant forall j :: 0 <= j < i ==> ValidEntry(es[j])
      invariant total == SumEntries(es[..i])
    {
      assert es[..i + 1][..i] == es[..i];
      if !ValidEntry(es[i]) { return false, []; }
      total := SafeAdd(total, es[i].coins);
    }
    assert es[..|es|] == es;
  }

  method ValidateInputsOutputs(ins: seq<Entry>, outs: seq<Entry>) returns (r: Outcome)
    ensures r.Done? <==> ValidEntries(ins) && ValidEntries(outs) && Balanced(ins, outs)
    ensures r.Done? ==> forall e :: e in ins + outs ==> e.addr != [] && e.coins != [] && IsValid(e.coins)
  {
    var ok, totalIn := AddEntries(ins);
    if !ok { return Failed; }
    var ok', totalOut := AddEntries(outs);
    if !ok' { return Failed; }
    r := IsEqual(totalIn, totalOut);
    SumEntriesCanonical(ins);
    SumEntriesCanonical(outs);
    Text.SortedStays(totalIn);
    Text.SortedStays(totalOut);
    BalancedWhenEqual(ins, outs);
  }

  function TookAll(accounts: Accounts, ins: seq<Entry>): Accounts {
    if ins == [] then accounts
    else Took(TookAll(accounts, ins[..|ins| - 1]), ins[|ins| - 1].addr, ins[|ins| - 1].coins)
  }

  function GaveAll(accounts: Accounts, outs: seq<Entry>): Accounts {
    if outs == [] then accounts
    else Gave(GaveAll(accounts, outs[..|outs| - 1]), outs[|outs| - 1].addr, outs[|outs| - 1].coins)
  }

  lemma {:induction false} TookAllSupply(accounts: Accounts, ins: seq<Entry>, d: Bytes)
    ensures Supply(TookAll(accounts, ins), d) == Supply(accounts, d) - EntriesTotal(ins, d)
  {
    if ins != [] {
      TookAllSupply(accounts, ins[..|ins| - 1], d);
      TookSupply(TookAll(accounts, ins[..|ins| - 1]), ins[|ins| - 1].addr, ins[|ins| - 1].coins, d);
    }
  }

  lemma {:induction false} GaveAllSupply(accounts: Accounts, outs: seq<Entry>, d: Bytes)
    ensures Supply(GaveAll(accounts, outs), d) == Supply(accounts, d) + EntriesTotal(outs, d)
  {
    if outs != [] {
      GaveAllSupply(accounts, outs[..|outs| - 1], d);
      GaveSupply(GaveAll(accounts, outs[..|outs| - 1]), outs[|outs| - 1].addr, outs[|outs| - 1].coins, d);
    }
  }

  // What the entries of one address add up to.
  function EntriesOf(es: seq<Entry>, a: Addr, d: Bytes): int {
    if es == [] then 0
    else
      var e := es[|es| - 1];
      EntriesOf(es[..|es| - 1], a, d) + if e.addr == a then Total(e.coins, d) else 0
  }

  lemma {:induction false} TookAllBalance(accounts: Accounts, ins: seq<Entry>, a: Addr, d: Bytes)
    ensures Total(CoinsOf(TookAll(accounts, ins), a), d) == Total(CoinsOf(accounts, a), d) - EntriesOf(ins, a, d)
  {
    if ins != [] {
      var init, e := ins[..|ins| - 1], ins[|ins| - 1];
      TookAllBalance(accounts, init, a, d);
      SubTotal(CoinsOf(TookAll(accounts, init), e.addr), e.coins, d);
    }
  }

  lemma {:induction false} GaveAllBalance(accounts: Accounts, outs: seq<Entry>, a: Addr, d: Bytes)
    ensures Total(CoinsOf(GaveAll(accounts, outs), a), d) == Total(CoinsOf(accounts, a), d) + EntriesOf(outs, a, d)
  {
    if outs != [] {
      var init, e := outs[..|outs| - 1], outs[|outs| - 1];
      GaveAllBalance(accounts, init, a, d);
      AddTotal(CoinsOf(GaveAll(accounts, init), e.addr), e.coins, d);
    }
  }

  // Every account gives what its inputs say and gets what its outputs say.
  lemma MultiSendBalances(accounts: Accounts, ins: seq<Entry>, outs: seq<Entry>, a: Addr, d: Bytes)
    ensures Total(CoinsOf(GaveAll(TookAll(accounts, ins), outs), a), d) ==
            Total(CoinsOf(accounts, a), d) - EntriesOf(ins, a, d) + EntriesOf(outs, a, d)
  {
    TookAllBalance(accounts, ins, a, d);
    GaveAllBalance(TookAll(accounts, ins), outs, a, d);
  }

  // Whatever addresses repeat among the inputs and outputs.
  lemma MultiSendConserves(accounts: Accounts, ins: seq<Entry>, outs: seq<Entry>, d: Bytes)
    requires Balanced(ins, outs)
    ensures Supply(GaveAll(TookAll(accounts, ins), outs), d) == Supply(accounts, d)
  {
    TookAllSupply(accounts, ins, d);
    GaveAllSupply(TookAll(accounts, ins), outs, d);
    assert EntriesTotal(ins, d) == EntriesTotal(outs, d);
  }

  ghost predicate SameSequences(accounts: Accounts, accounts': Accounts) {
    forall a :: SequenceOf(accounts', a) == SequenceOf(accounts, a)
  }

  lemma {:induction false} MultiSendSequences(accounts: Accounts, ins: seq<Entry>, outs: seq<Entry>)
    ensures SameSequences(accounts, TookAll(accounts, ins)) && SameSequences(accounts, GaveAll(accounts, outs))
    decreases |ins| + |outs|
  {
    if ins != [] {
      MultiSendSequences(accounts, ins[..|ins| - 1], outs);
    }
    if outs != [] {
      MultiSendSequences(accounts, ins, outs[..|outs| - 1]);
    }
  }

  // ---------- Messages and transactions ----------

  datatype Msg = Send(from: Addr, to: Addr, amt: Coins) | MultiSend(ins: seq<Entry>, outs: seq<Entry>)

  // What a message that succeeds does.
  ghost function After(accounts: Accounts, m: Msg): Accounts {
    match m
    case Send(from, to, amt) => Sent(accounts, from, to, amt)
    case MultiSend(ins, outs) => GaveAll(TookAll(accounts, ins), outs)
  }

  // Every input can be taken after the ones before it, every output given.
  predicate CanTake(spending: Spending, accounts: Accounts, ins: seq<Entry>, i: nat)
    requires i < |ins|
  {
    Taking(spending, TookAll(accounts, ins[..i]), ins[i].addr, ins[i].coins).Done?
  }

  predicate AllTaken(spending: Spending, accounts: Accounts, ins: seq<Entry>) {
    forall i :: 0 <= i < |ins| ==> CanTake(spending, accounts, ins, i)
  }

  predicate CanGive(accounts: Accounts, outs: seq<Entry>, i: nat)
    requires i < |outs|
  {
    Giving(GaveAll(accounts, outs[..i]), outs[i].addr, outs[i].coins).Done?
  }

  predicate AllGiven(accounts: Accounts, outs: seq<Entry>) {
    forall i :: 0 <= i < |outs| ==> CanGive(accounts, outs, i)
  }

  // When a message succeeds.
  ghost predicate Succeeds(spending: Spending, accounts: Accounts, m: Msg) {
    match m
    case Send(from, to, amt) => Sending(spending, accounts, from, to, amt).Done?
    case MultiSend(ins, outs) =>
      ValidEntries(ins) && ValidEntries(outs) && Balanced(ins, outs) &&
      AllTaken(spending, accounts, ins) && AllGiven(TookAll(accounts, ins), outs)
  }

  // Every message succeeds after the ones before it, within its gas.
  ghost predicate SucceedsAt(spending: Spending, accounts: Accounts, msgs: seq<Msg>, sendEnabled: bool, gas: nat -> bool, i: nat)
    requires i < |msgs|
  {
    sendEnabled && Succeeds(spending, AfterAll(accounts, msgs[..i]), msgs[i]) && gas(i)
  }

  ghost predicate AllSucceed(spending: Spending, accounts: Accounts, msgs: seq<Msg>, sendEnabled: bool, gas: nat -> bool) {
    forall i :: 0 <= i < |msgs| ==> SucceedsAt(spending, accounts, msgs, sendEnabled, gas, i)
  }

  // The messages so far have all succeeded and done what they do.
  ghost predicate Ran(spending: Spending, was: Accounts, now: Accounts, msgs: seq<Msg>, sendEnabled: bool, gas: nat -> bool,
                      n: nat) {
    n <= |msgs| && BalancedMsgs(msgs[..n]) && now == AfterAll(was, msgs[..n]) &&
    forall i :: 0 <= i < n ==> SucceedsAt(spending, was, msgs, sendEnabled, gas, i)
  }

  lemma RanAll(spending: Spending, was: Accounts, now: Accounts, msgs: seq<Msg>, sendEnabled: bool, gas: nat -> bool)
    requires Ran(spending, was, now, msgs, sendEnabled, gas, |msgs|)
    ensures BalancedMsgs(msgs) && now == AfterAll(was, msgs) && AllSucceed(spending, was, msgs, sendEnabled, gas)
  {
    assert msgs[..|msgs|] == msgs;
  }

  ghost predicate BalancedMsg(m: Msg) {
    m.MultiSend? ==> Balanced(m.ins, m.outs)
  }

  ghost predicate BalancedMsgs(msgs: seq<Msg>) {
    msgs == [] || (BalancedMsgs(msgs[..|msgs| - 1]) && BalancedMsg(msgs[|msgs| - 1]))
  }

  ghost function AfterAll(accounts: Accounts, msgs: seq<Msg>): Accounts {
    if msgs == [] then accounts else After(AfterAll(accounts, msgs[..|msgs| - 1]), msgs[|msgs| - 1])
  }

  lemma AfterConserves(accounts: Accounts, m: Msg, d: Bytes)
    requires BalancedMsg(m)
    ensures Supply(After(accounts, m), d) == Supply(accounts, d) && SameSequences(accounts, After(accounts, m))
  {
    match m
    case Send(from, to, amt) => SentConserves(accounts, from, to, amt, d);
    case MultiSend(ins, outs) =>
      MultiSendConserves(accounts, ins, outs, d);
      MultiSendSequences(accounts, ins, []);
      MultiSendSequences(TookAll(accounts, ins), [], outs);
  }

  lemma {:induction false} AfterAllConserves(accounts: Accounts, msgs: seq<Msg>, d: Bytes)
    requires BalancedMsgs(msgs)
    ensures Supply(AfterAll(accounts, msgs), d) == Supply(accounts, d) && SameSequences(accounts, AfterAll(accounts, msgs))
  {
    if msgs != [] {
      AfterAllConserves(accounts, msgs[..|msgs| - 1], d);
      AfterConserves(AfterAll(accounts, msgs[..|msgs| - 1]), msgs[|msgs| - 1], d);
    }
  }

  // Account balances and collected fees together, denomination by denomination.
  ghost predicate Conserves(accounts: Accounts, fees: Coins, accounts': Accounts, fees': Coins) {
    forall d :: Supply(accounts', d) + Total(fees', d) == Supply(accounts, d) + Total(fees, d)
  }

  lemma MsgsConserve(accounts: Accounts, fees: Coins, msgs: seq<Msg>)
    requires BalancedMsgs(msgs)
    ensures Conserves(accounts, fees, AfterAll(accounts, msgs), fees) && SameSequences(accounts, AfterAll(accounts, msgs))
  {
    AfterAllConserves(accounts, msgs, []);
    forall d ensures Supply(AfterAll(accounts, msgs), d) == Supply(accounts, d) {
      AfterAllConserves(accounts, msgs, d);
    }
  }

  class Keeper {
    var accounts: Accounts
    var fees: Coins
    const spending: Spending

    constructor (accounts: Accounts, fees: Coins, spending: Spending)
      ensures this.accounts == accounts && this.fees == fees && this.spending == spending
    {
      this.accounts, this.fees, this.spending := accounts, fees, spending;
    }

    method SetCoins(a: Addr, coins: Coins) returns (r: Outcome)
      modifies `accounts
      ensures r == if IsValid(coins) then Done else Failed
      ensures accounts == if r.Done? then WithCoins(old(accounts), a, coins) else old(accounts)
    {
      if !IsValid(coins) { return Failed; }
      var acc := if a in accounts then accounts[a] else Account([], 0);
      accounts := accounts[a := acc.(coins := coins)];
      return Done;
    }

    method SubtractCoins(a: Addr, amt: Coins) returns (r: Outcome)
      modifies `accounts
      ensures r == Taking(spending, old(accounts), a, amt)
      ensures accounts == if r.Done? then Took(old(accounts), a, amt) else old(accounts)
    {
      if !IsValid(amt) { return Failed; }
      var oldCoins, spendable: Option<Coins> := [], Some([]);
      if a in accounts {
        oldCoins, spendable := accounts[a].coins, spending(a, accounts[a].coins);
      }
      if spendable.None? { return Panicked; }
      if AnyNegative(Sub(spendable.value, amt)) { return Failed; }
      var newCoins := Sub(oldCoins, amt);
      if AnyNegative(newCoins) { return Panicked; }
      r := SetCoins(a, newCoins);
    }

    method AddCoins(a: Addr, amt: Coins) returns (r: Outcome)
      modifies `accounts
      ensures r == Giving(old(accounts), a, amt)
      ensures accounts == if r.Done? then Gave(old(accounts), a, amt) else old(accounts)
    {
      if !IsValid(amt) { return Failed; }
      var newCoins := SafeAdd(CoinsOf(accounts, a), amt);
      if AnyNegative(newCoins) { return Failed; }
      r := SetCoins(a, newCoins);
    }

    // A failure after the first half leaves the coins taken: the caller must discard the state.
    method SendCoins(from: Addr, to: Addr, amt: Coins) returns (r: Outcome)
      modifies `accounts
      ensures r == Sending(spending, old(accounts), from, to, amt)
      ensures r.Done? ==> accounts == Sent(old(accounts), from, to, amt)
    {
      if !IsValid(amt) { return Failed; }
      r := SubtractCoins(from, amt);
      if r.Done? {
        r := AddCoins(to, amt);
      }
    }

    method InputOutputCoins(ins: seq<Entry>, outs: seq<Entry>) returns (r: Outcome)
      modifies `accounts
      ensures r.Done? <==> Succeeds(spending, old(accounts), MultiSend(ins, outs))
      ensures r.Done? ==> Balanced(ins, outs) && accounts == GaveAll(TookAll(old(accounts), ins), outs)
    {
      r := ValidateInputsOutputs(ins, outs);
      if !r.Done? { return; }
      r := TakeInputs(ins);
      if !r.Done? { return; }
      r := GiveOutputs(outs);
    }

    method TakeInputs(ins: seq<Entry>) returns (r: Outcome)
      modifies `accounts
      ensures r.Done? <==> AllTaken(spending, old(accounts), ins)
      ensures r.Done? ==> accounts == TookAll(old(accounts), ins)
    {
      for i := 0 to |ins|
        invariant accounts == TookAll(old(accounts), ins[..i])
        invariant forall j :: 0 <= j < i ==> CanTake(spending, old(accounts), ins, j)
      {
        assert ins[..i + 1][..i] == ins[..i];
        r := SubtractCoins(ins[i].addr, ins[i].coins);
        assert r.Done? <==> CanTake(spending, old(accounts), ins, i);
        if !r.Done? { return; }
      }
      assert ins[..|ins|] == ins;
      r := Done;
    }

    method GiveOutputs(outs: seq<Entry>) returns (r: Outcome)
      modifies `accounts
      ensures r.Done? <==> AllGiven(old(accounts), outs)
      ensures r.Done? ==> accounts == GaveAll(old(accounts), outs)
    {
      for i := 0 to |outs|
        invariant accounts == GaveAll(old(accounts), outs[..i])
        invariant forall j :: 0 <= j < i ==> CanGive(old(accounts), outs, j)
      {
        assert outs[..i + 1][..i] == outs[..i];
        r := AddCoins(outs[i].addr, outs[i].coins);
        assert r.Done? <==> CanGive(old(accounts), outs, i);
        if !r.Done? { return; }
      }
      assert outs[..|outs|] == outs;
      r := Done;
    }

    method Handle(m: Msg, sendEnabled: bool) returns (r: Outcome)
      modifies `accounts
      ensures r.Done? <==> sendEnabled && Succeeds(spending, old(accounts), m)
      ensures r.Done? ==> accounts == After(old(accounts), m) && BalancedMsg(m)
    {
      if !sendEnabled { return Failed; }
      match m
      case Send(from, to, amt) => r := SendCoins(from, to, amt);
      case MultiSend(ins, outs) => r := InputOutputCoins(ins, outs);
    }

    // The i-th message of runMsgs. gas(i): it does not run out.
    method HandleAt(msgs: seq<Msg>, i: nat, sendEnabled: bool, gas: nat -> bool, ghost was: Accounts) returns (ok: bool)
      requires i < |msgs| && Ran(spending, was, accounts, msgs, sendEnabled, gas, i)
      modifies `accounts
      ensures ok ==> Ran(spending, was, accounts, msgs, sendEnabled, gas, i + 1)
      ensures !ok ==> !AllSucceed(spending, was, msgs, sendEnabled, gas)
    {
      assert msgs[..i + 1][..i] == msgs[..i];
      var r := Handle(msgs[i], sendEnabled);
      ok := r.Done? && gas(i);
      assert ok <==> SucceedsAt(spending, was, msgs, sendEnabled, gas, i);
    }

    // The messages up to the first that does not succeed.
    method RunMsgs(msgs: seq<Msg>, sendEnabled: bool, gas: nat -> bool) returns (ok: bool)
      modifies `accounts
      ensures ok <==> AllSucceed(spending, old(accounts), msgs, sendEnabled, gas)
      ensures ok ==> BalancedMsgs(msgs) && accounts == AfterAll(old(accounts), msgs)
    {
      for i := 0 to |msgs|
        invariant Ran(spending, old(accounts), accounts, msgs, sendEnabled, gas, i)
      {
        ok := HandleAt(msgs, i, sendEnabled, gas, old(accounts));
        if !ok { return; }
      }
      RanAll(spending, old(accounts), accounts, msgs, sendEnabled, gas);
      return true;
    }

    // DeductFees succeeds exactly when the account's coins and its spendable coins both cover a valid
    // fee. It does not look at what is left.
    method DeductFees(a: Addr, acc: Account, fee: Coins) returns (r: Outcome, acc': Account)
      ensures r.Done? <==> Deductible(spending, a, acc.coins, fee)
      ensures r.Panicked? <==> IsValid(fee) && !AnyNegative(Sub(acc.coins, fee)) && spending(a, acc.coins).None?
      ensures r.Done? ==> acc' == acc.(coins := Sub(acc.coins, fee)) && !AnyNegative(acc'.coins)
    {
      acc' := acc;
      if !IsValid(fee) { return Failed, acc; }
      var newCoins := Sub(acc.coins, fee);
      if AnyNegative(newCoins) { return Failed, acc; }
      var spendable := spending(a, acc.coins);
      if spendable.None? { return Panicked, acc; }
      if AnyNegative(Sub(spendable.value, fee)) { return Failed, acc; }
      return Done, acc.(coins := newCoins);
    }

    // The loop over the signatures; the first signer's account has been charged in memory.
    method Sign(signers: seq<Addr>, payer: Account, verify: (nat, Account) -> bool) returns (ok: bool)
      requires signers != [] && signers[0] in accounts
      modifies `accounts
      ensures ok <==> Signable(old(accounts), signers) && AllVerified(old(accounts), payer, signers, verify)
      ensures ok ==> accounts == Signed(old(accounts), payer, signers)
    {
      for i := 0 to |signers|
        invariant forall j :: 0 <= j < i ==> signers[j] in old(accounts)
        invariant accounts == Signed(old(accounts), payer, signers[..i])
        invariant AllVerified(old(accounts), payer, signers[..i], verify)
      {
        assert signers[..i + 1][..i] == signers[..i] && signers[..i + 1][i] == signers[i];
        var acc := payer;
        if i != 0 {
          if signers[i] !in accounts { return false; }
          acc := accounts[signers[i]];
        }
        VerifiedSnoc(old(accounts), payer, signers, i, verify);
        VerifiedPrefix(old(accounts), payer, signers, i + 1, verify);
        if !verify(i, acc) { return false; }
        accounts := accounts[signers[i] := acc.(sequence := acc.sequence + 1)];
      }
      assert signers[..|signers|] == signers;
      return true;
    }

    // The ante handler in Deliver mode. basic: the checks that look at no account. verify(i, acc): the
    // i-th signature is good for the account and its gas is there.
    method Ante(signers: seq<Addr>, fee: Coins, basic: bool, verify: (nat, Account) -> bool) returns (ok: bool)
      requires basic ==> signers != []
      modifies this
      ensures ok <==> basic && Signable(old(accounts), signers) &&
                      Payable(spending, signers[0], old(accounts)[signers[0]].coins, fee) &&
                      AllVerified(old(accounts), Charged(old(accounts)[signers[0]], fee), signers, verify)
      ensures ok ==> Signable(old(accounts), signers) && accounts == AfterAnte(old(accounts), fee, signers) &&
                     fees == if IsZero(fee) then old(fees) else Add(old(fees), fee)
    {
      if !basic || signers[0] !in accounts { return false; }
      var payer := accounts[signers[0]];
      if !IsZero(fee) {
        var r;
        r, payer := DeductFees(signers[0], payer, fee);
        if !r.Done? { return false; }
        fees := SafeAdd(fees, fee);
      }
      ok := Sign(signers, payer, verify);
    }

    // DeliverTx for a transaction of bank messages: the ante step and the messages each run on a copy
    // that is kept only if they succeed. basic: the messages' and the transaction's ValidateBasic, the
    // memo and the gas for the bytes, all but the number of signatures.
    method DeliverTx(msgs: seq<Msg>, sigs: nat, fee: Coins, basic: bool, sendEnabled: bool,
                     verify: (nat, Account) -> bool, gas: nat -> bool)
      returns (passed: bool, ok: bool)
      modifies this
      ensures Conserves(old(accounts), old(fees), accounts, fees)
      ensures forall a :: SequenceOf(accounts, a) ==
                          SequenceOf(old(accounts), a) + if passed && a in AllSigners(msgs) then 1 else 0
      ensures fees == if passed && !IsZero(fee) then Add(old(fees), fee) else old(fees)
      ensures forall d :: Total(fees, d) == Total(old(fees), d) + if passed then Total(fee, d) else 0
      ensures OthersKeep(old(accounts), accounts, AllSigners(msgs))
      ensures !passed ==> !ok && accounts == old(accounts)
      ensures var signers := Dedup(AllSigners(msgs));
              passed <==> basic && 0 < sigs == |signers| && Signable(old(accounts), signers) &&
                          Payable(spending, signers[0], old(accounts)[signers[0]].coins, fee) &&
                          verify(0, Charged(old(accounts)[signers[0]], fee)) &&
                          forall i :: 1 <= i < |signers| ==> verify(i, old(accounts)[signers[i]])
      ensures ok <==> passed && AllSucceed(spending, AfterAnte(old(accounts), fee, Dedup(AllSigners(msgs))), msgs, sendEnabled, gas)
      ensures passed ==> Signable(old(accounts), Dedup(AllSigners(msgs))) &&
                         accounts == var ante := AfterAnte(old(accounts), fee, Dedup(AllSigners(msgs)));
                                     if ok then AfterAll(ante, msgs) else ante
    {
      var saved, savedFees := accounts, fees;
      var signers := GetSigners(msgs);
      DedupIs(AllSigners(msgs));
      if Signable(accounts, signers) {
        VerifiedAsStored(accounts, Charged(accounts[signers[0]], fee), signers, verify);
      }
      passed := Ante(signers, fee, basic && sigs != 0 && sigs == |signers|, verify);
      if !passed {
        accounts, fees := saved, savedFees;
        return false, false;
      }
      FeesRise(savedFees, fee);
      SignersPay(spending, saved, fee, msgs, sendEnabled, gas);
      SignedConserves(saved, savedFees, fee, signers);
      SignedSequences(saved, Charged(saved[signers[0]], fee), signers);
      saved := accounts;
      ok := RunMsgs(msgs, sendEnabled, gas);
      if ok {
        MsgsConserve(saved, fees, msgs);
      } else {
        accounts := saved;
      }
    }
  }

  // ---------- Signers ----------

  function Addrs(es: seq<Entry>): seq<Addr> {
    seq(|es|, i requires 0 <= i < |es| => es[i].addr)
  }

  function MsgSigners(m: Msg): seq<Addr> {
    match m case Send(from, _, _) => [from] case MultiSend(ins, _) => Addrs(ins)
  }

  function AllSigners(msgs: seq<Msg>): seq<Addr> {
    if msgs == [] then [] else AllSigners(msgs[..|msgs| - 1]) + MsgSigners(msgs[|msgs| - 1])
  }

  // The addresses in the order of their first occurrence.
  function Dedup(s: seq<Addr>): seq<Addr> {
    if s == [] then []
    else
      var r, a := Dedup(s[..|s| - 1]), s[|s| - 1];
      if a in r then r else r + [a]
  }

  lemma {:induction false} DedupIs(s: seq<Addr>)
    ensures Distinct(Dedup(s)) && forall a :: a in Dedup(s) <==> a in s
  {
    if s != [] {
      DedupIs(s[..|s| - 1]);
      assert s == s[..|s| - 1] + [s[|s| - 1]];
    }
  }

  // The first signer of the first message comes first, and later messages only add at the end.
  lemma {:induction false} DedupGrows(s: seq<Addr>, n: nat)
    requires n <= |s|
    ensures Dedup(s[..n]) <= Dedup(s)
    ensures s != [] ==> Dedup(s) != [] && Dedup(s)[0] == s[0]
  {
    if n < |s| {
      assert s[..|s| - 1][..n] == s[..n];
      DedupGrows(s[..|s| - 1], n);
    } else {
      assert s[..n] == s;
      if |s| > 1 { DedupGrows(s[..|s| - 1], |s| - 1); }
    }
  }

  method AddSigners(signers: seq<Addr>, seen: set<Addr>, mine: seq<Addr>, ghost before: seq<Addr>)
    returns (signers': seq<Addr>, seen': set<Addr>)
    requires signers == Dedup(before) && forall a :: a in seen <==> a in signers
    ensures signers' == Dedup(before + mine) && forall a :: a in seen' <==> a in signers'
  {
    signers', seen' := signers, seen;
    assert before + mine[..0] == before;
    for j := 0 to |mine|
      invariant signers' == Dedup(before + mine[..j]) && forall a :: a in seen' <==> a in signers'
    {
      assert (before + mine[..j + 1])[..|before| + j] == before + mine[..j];
      if mine[j] !in seen' {
        signers' := signers' + [mine[j]];
        seen' := seen' + {mine[j]};
      }
    }
    assert mine[..|mine|] == mine;
  }

  method GetSigners(msgs: seq<Msg>) returns (signers: seq<Addr>)
    ensures signers == Dedup(AllSigners(msgs))
  {
    signers := [];
    var seen: set<Addr> := {};
    for i := 0 to |msgs|
      invariant signers == Dedup(AllSigners(msgs[..i])) && forall a :: a in seen <==> a in signers
    {
      assert msgs[..i + 1][..i] == msgs[..i];
      signers, seen := AddSigners(signers, seen, MsgSigners(msgs[i]), AllSigners(msgs[..i]));
    }
    assert msgs[..|msgs|] == msgs;
  }

  // ---------- Only signers pay ----------

  lemma {:induction false} NoEntries(es: seq<Entry>, a: Addr, d: Bytes)
    requires forall i :: 0 <= i < |es| ==> es[i].addr != a
    ensures EntriesOf(es, a, d) == 0
  {
    if es != [] { NoEntries(es[..|es| - 1], a, d); }
  }

  lemma {:induction false} EntriesAdd(es: seq<Entry>, a: Addr, d: Bytes)
    requires ValidEntries(es)
    ensures EntriesOf(es, a, d) >= 0
  {
    if es != [] {
      EntriesAdd(es[..|es| - 1], a, d);
      IsValidMeans(es[|es| - 1].coins);
      CanonicalTotals(es[|es| - 1].coins, d);
    }
  }

  lemma MsgSignersPay(spending: Spending, accounts: Accounts, m: Msg, a: Addr, d: Bytes)
    requires Succeeds(spending, accounts, m) && a !in MsgSigners(m)
    ensures Total(CoinsOf(After(accounts, m), a), d) >= Total(CoinsOf(accounts, a), d)
  {
    match m
    case Send(from, to, amt) =>
      IsValidMeans(amt);
      CanonicalTotals(amt, d);
      SentBalances(accounts, from, to, amt, a, d);
    case MultiSend(ins, outs) =>
      forall i | 0 <= i < |ins| ensures ins[i].addr != a {
        assert Addrs(ins)[i] == ins[i].addr;
      }
      NoEntries(ins, a, d);
      EntriesAdd(outs, a, d);
      MultiSendBalances(accounts, ins, outs, a, d);
  }

  lemma {:induction false} MsgsSignersPay(spending: Spending, accounts: Accounts, msgs: seq<Msg>, sendEnabled: bool,
                                          gas: nat -> bool, a: Addr, d: Bytes)
    requires AllSucceed(spending, accounts, msgs, sendEnabled, gas) && a !in AllSigners(msgs)
    ensures Total(CoinsOf(AfterAll(accounts, msgs), a), d) >= Total(CoinsOf(accounts, a), d)
  {
    if msgs != [] {
      var init, n := msgs[..|msgs| - 1], |msgs| - 1;
      forall i | 0 <= i < |init| ensures SucceedsAt(spending, accounts, init, sendEnabled, gas, i) {
        assert SucceedsAt(spending, accounts, msgs, sendEnabled, gas, i) && init[..i] == msgs[..i];
      }
      MsgsSignersPay(spending, accounts, init, sendEnabled, gas, a, d);
      assert SucceedsAt(spending, accounts, msgs, sendEnabled, gas, n);
      MsgSignersPay(spending, AfterAll(accounts, init), msgs[n], a, d);
    }
  }

  // Whoever signed nothing loses nothing.
  ghost predicate OthersKeep(was: Accounts, now: Accounts, signers: seq<Addr>) {
    forall a, d :: a !in signers ==> Total(CoinsOf(now, a), d) >= Total(CoinsOf(was, a), d)
  }

  // The first signer pays the fee and no other balance changes.
  lemma FirstSignerPays(accounts: Accounts, fee: Coins, signers: seq<Addr>, a: Addr, d: Bytes)
    requires Distinct(signers) && Signable(accounts, signers)
    ensures Total(CoinsOf(AfterAnte(accounts, fee, signers), a), d) ==
            Total(CoinsOf(accounts, a), d) - if a == signers[0] then Total(fee, d) else 0
  {
    var acc := accounts[signers[0]];
    if a in accounts { SignedAt(accounts, Charged(acc, fee), signers, a); }
    if IsZero(fee) { ZeroTotal(fee, d); } else { SubTotal(acc.coins, fee, d); }
  }

  lemma FeesRise(fees: Coins, fee: Coins)
    ensures forall d :: Total(if IsZero(fee) then fees else Add(fees, fee), d) == Total(fees, d) + Total(fee, d)
  {
    forall d ensures Total(if IsZero(fee) then fees else Add(fees, fee), d) == Total(fees, d) + Total(fee, d) {
      if IsZero(fee) { ZeroTotal(fee, d); } else { AddTotal(fees, fee, d); }
    }
  }

  lemma AnteSignersPay(accounts: Accounts, fee: Coins, signers: seq<Addr>)
    requires Distinct(signers) && Signable(accounts, signers)
    ensures OthersKeep(accounts, AfterAnte(accounts, fee, signers), signers)
  {
    var payer := Charged(accounts[signers[0]], fee);
    forall a | a in accounts && a !in signers ensures Signed(accounts, payer, signers)[a].coins == accounts[a].coins {
      NotYetSigned(accounts, payer, signers, a);
    }
  }

  lemma SignersPay(spending: Spending, accounts: Accounts, fee: Coins, msgs: seq<Msg>, sendEnabled: bool, gas: nat -> bool)
    requires var signers := Dedup(AllSigners(msgs)); Distinct(signers) && Signable(accounts, signers)
    ensures var ante := AfterAnte(accounts, fee, Dedup(AllSigners(msgs)));
            OthersKeep(accounts, ante, AllSigners(msgs)) &&
            (AllSucceed(spending, ante, msgs, sendEnabled, gas) ==> OthersKeep(accounts, AfterAll(ante, msgs), AllSigners(msgs)))
  {
    var signers := Dedup(AllSigners(msgs));
    var ante := AfterAnte(accounts, fee, signers);
    DedupIs(AllSigners(msgs));
    AnteSignersPay(accounts, fee, signers);
    if AllSucceed(spending, ante, msgs, sendEnabled, gas) {
      forall a, d | a !in AllSigners(msgs) ensures Total(CoinsOf(AfterAll(ante, msgs), a), d) >= Total(CoinsOf(accounts, a), d) {
        MsgsSignersPay(spending, ante, msgs, sendEnabled, gas, a, d);
        assert Total(CoinsOf(ante, a), d) >= Total(CoinsOf(accounts, a), d);
      }
    }
  }

  // ---------- The ante step on values ----------

  // What DeductFees asks of an account.
  predicate Deductible(spending: Spending, a: Addr, coins: Coins, fee: Coins) {
    IsValid(fee) && !AnyNegative(Sub(coins, fee)) &&
    spending(a, coins).Some? && !AnyNegative(Sub(spending(a, coins).value, fee))
  }

  predicate Payable(spending: Spending, a: Addr, coins: Coins, fee: Coins) {
    IsZero(fee) || Deductible(spending, a, coins, fee)
  }

  predicate IsZero(cs: Coins) {
    forall i :: 0 <= i < |cs| ==> cs[i].amount == 0
  }

  lemma {:induction false} ZeroTotal(cs: Coins, d: Bytes)
    requires IsZero(cs)
    ensures Total(cs, d) == 0
  {
    if cs != [] { ZeroTotal(cs[1..], d); }
  }

  // A sorted list is zero exactly when it holds nothing.
  lemma IsZeroMeans(cs: Coins)
    requires Sorted(cs)
    ensures IsZero(cs) <==> forall d :: Total(cs, d) == 0
  {
    if IsZero(cs) {
      forall d ensures Total(cs, d) == 0 { ZeroTotal(cs, d); }
    } else {
      var i :| 0 <= i < |cs| && cs[i].amount != 0;
      TotalAt(cs, i);
      assert Total(cs, cs[i].denom) != 0;
    }
  }

  predicate Distinct(signers: seq<Addr>) {
    forall i, j :: 0 <= i < j < |signers| ==> signers[i] != signers[j]
  }

  function Charged(acc: Account, fee: Coins): Account {
    if IsZero(fee) then acc else acc.(coins := Sub(acc.coins, fee))
  }

  // The signature loop: the first signer's account is the charged one held in memory.
  function Signed(accounts: Accounts, payer: Account, signers: seq<Addr>): (r: Accounts)
    requires forall i :: 0 <= i < |signers| ==> signers[i] in accounts
    ensures r.Keys == accounts.Keys
  {
    if signers == [] then accounts
    else
      var before, s := Signed(accounts, payer, signers[..|signers| - 1]), signers[|signers| - 1];
      var acc := if |signers| == 1 then payer else before[s];
      before[s := acc.(sequence := acc.sequence + 1)]
  }

  // By amounts: a valid fee that both the coins and the spendable coins cover.
  lemma DeductibleMeans(spending: Spending, a: Addr, coins: Coins, fee: Coins)
    requires Sorted(coins) && (spending(a, coins).Some? ==> Sorted(spending(a, coins).value))
    ensures Deductible(spending, a, coins, fee) <==>
            IsValid(fee) && spending(a, coins).Some? && (forall d :: Total(fee, d) <= Total(coins, d)) &&
            forall d :: Total(fee, d) <= Total(spending(a, coins).value, d)
  {
    if IsValid(fee) {
      IsValidMeans(fee);
      SafeSubFlag(coins, fee);
      if spending(a, coins).Some? { SafeSubFlag(spending(a, coins).value, fee); }
    }
  }

  // The account the i-th signature is checked against.
  function SignerAccount(accounts: Accounts, payer: Account, signers: seq<Addr>, i: nat): Account
    requires i < |signers| && forall j :: 0 <= j < |signers| ==> signers[j] in accounts
  {
    if i == 0 then payer else Signed(accounts, payer, signers[..i])[signers[i]]
  }

  predicate AllVerified(accounts: Accounts, payer: Account, signers: seq<Addr>, verify: (nat, Account) -> bool)
    requires forall j :: 0 <= j < |signers| ==> signers[j] in accounts
  {
    forall i :: 0 <= i < |signers| ==> verify(i, SignerAccount(accounts, payer, signers, i))
  }

  lemma VerifiedSnoc(accounts: Accounts, payer: Account, signers: seq<Addr>, i: nat, verify: (nat, Account) -> bool)
    requires i < |signers| && forall j :: 0 <= j <= i ==> signers[j] in accounts
    ensures AllVerified(accounts, payer, signers[..i + 1], verify) <==>
            AllVerified(accounts, payer, signers[..i], verify) &&
            verify(i, if i == 0 then payer else Signed(accounts, payer, signers[..i])[signers[i]])
  {
    var now, was := signers[..i + 1], signers[..i];
    assert now[..i] == was;
    forall j | 0 <= j < i ensures SignerAccount(accounts, payer, now, j) == SignerAccount(accounts, payer, was, j) {
      assert now[..j] == was[..j];
    }
    assert SignerAccount(accounts, payer, now, i) == if i == 0 then payer else Signed(accounts, payer, was)[signers[i]];
    if AllVerified(accounts, payer, now, verify) {
      forall j | 0 <= j < i ensures verify(j, SignerAccount(accounts, payer, was, j)) {
        assert verify(j, SignerAccount(accounts, payer, now, j));
      }
    }
  }

  lemma VerifiedPrefix(accounts: Accounts, payer: Account, signers: seq<Addr>, n: nat, verify: (nat, Account) -> bool)
    requires n <= |signers| && forall j :: 0 <= j < n ==> signers[j] in accounts
    ensures Signable(accounts, signers) && AllVerified(accounts, payer, signers, verify) ==>
            AllVerified(accounts, payer, signers[..n], verify)
  {
    if Signable(accounts, signers) {
      forall j | 0 <= j < n ensures SignerAccount(accounts, payer, signers[..n], j) == SignerAccount(accounts, payer, signers, j) {
        assert signers[..n][..j] == signers[..j];
      }
    }
  }

  // The signatures of different signers are checked against the accounts as stored, the first one charged.
  lemma VerifiedAsStored(accounts: Accounts, payer: Account, signers: seq<Addr>, verify: (nat, Account) -> bool)
    requires Distinct(signers) && Signable(accounts, signers)
    ensures AllVerified(accounts, payer, signers, verify) <==>
            verify(0, payer) && forall i :: 1 <= i < |signers| ==> verify(i, accounts[signers[i]])
  {
    forall i | 1 <= i < |signers| ensures SignerAccount(accounts, payer, signers, i) == accounts[signers[i]] {
      NotYetSigned(accounts, payer, signers[..i], signers[i]);
    }
    assert SignerAccount(accounts, payer, signers, 0) == payer;
  }

  lemma {:induction false} NotYetSigned(accounts: Accounts, payer: Account, signers: seq<Addr>, a: Addr)
    requires a in accounts && a !in signers && forall i :: 0 <= i < |signers| ==> signers[i] in accounts
    ensures Signed(accounts, payer, signers)[a] == accounts[a]
  {
    if signers != [] { NotYetSigned(accounts, payer, signers[..|signers| - 1], a); }
  }

  predicate Signable(accounts: Accounts, signers: seq<Addr>) {
    signers != [] && forall i :: 0 <= i < |signers| ==> signers[i] in accounts
  }

  function AfterAnte(accounts: Accounts, fee: Coins, signers: seq<Addr>): Accounts
    requires Signable(accounts, signers)
  {
    Signed(accounts, Charged(accounts[signers[0]], fee), signers)
  }

  lemma {:induction false} SignedAt(accounts: Accounts, payer: Account, signers: seq<Addr>, a: Addr)
    requires Distinct(signers) && forall i :: 0 <= i < |signers| ==> signers[i] in accounts
    requires signers != [] ==> payer.sequence == accounts[signers[0]].sequence
    requires a in accounts
    ensures Signed(accounts, payer, signers)[a].coins == if signers != [] && a == signers[0] then payer.coins else accounts[a].coins
    ensures Signed(accounts, payer, signers)[a].sequence == accounts[a].sequence + if a in signers then 1 else 0
  {
    if signers != [] {
      SignedAt(accounts, payer, signers[..|signers| - 1], a);
      assert signers == signers[..|signers| - 1] + [signers[|signers| - 1]];
    }
  }

  lemma SignedSequences(accounts: Accounts, payer: Account, signers: seq<Addr>)
    requires Distinct(signers) && signers != [] && forall i :: 0 <= i < |signers| ==> signers[i] in accounts
    requires payer.sequence == accounts[signers[0]].sequence
    ensures forall a :: SequenceOf(Signed(accounts, payer, signers), a) == SequenceOf(accounts, a) + if a in signers then 1 else 0
  {
    forall a | a in accounts
      ensures Signed(accounts, payer, signers)[a].sequence == accounts[a].sequence + if a in signers then 1 else 0 {
      SignedAt(accounts, payer, signers, a);
    }
  }

  lemma SignedSupply(accounts: Accounts, payer: Account, signers: seq<Addr>, d: Bytes)
    requires Distinct(signers) && signers != [] && forall i :: 0 <= i < |signers| ==> signers[i] in accounts
    requires payer.sequence == accounts[signers[0]].sequence
    ensures Supply(Signed(accounts, payer, signers), d) ==
            Supply(accounts, d) - Total(accounts[signers[0]].coins, d) + Total(payer.coins, d)
  {
    var now, was := Balances(Signed(accounts, payer, signers), d), Balances(accounts, d);
    forall a | a in accounts ensures now[a] == if a == signers[0] then Total(payer.coins, d) else was[a] {
      SignedAt(accounts, payer, signers, a);
    }
    SumSame(now, was[signers[0] := Total(payer.coins, d)]);
    SumSet(was, signers[0], Total(payer.coins, d));
  }

  lemma SignedConserves(accounts: Accounts, fees: Coins, fee: Coins, signers: seq<Addr>)
    requires Distinct(signers) && signers != [] && forall i :: 0 <= i < |signers| ==> signers[i] in accounts
    ensures Conserves(accounts, fees, Signed(accounts, Charged(accounts[signers[0]], fee), signers),
                      if IsZero(fee) then fees else Add(fees, fee))
  {
    var payer := Charged(accounts[signers[0]], fee);
    forall d ensures Supply(Signed(accounts, payer, signers), d) + Total(if IsZero(fee) then fees else Add(fees, fee), d) ==
                     Supply(accounts, d) + Total(fees, d) {
      SignedSupply(accounts, payer, signers, d);
      SubTotal(accounts[signers[0]].coins, fee, d);
      AddTotal(fees, fee, d);
    }
  }
}
