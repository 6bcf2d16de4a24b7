// x/gov/keeper.go, x/gov/handler.go, x/gov/endblocker.go: proposals, their deposits held in escrow, and
// the queues that end them.

module GovState {
  import opened Bytes
  import opened Coins
  import opened MapSum
  import opened Bank
  import opened GovKeys

  datatype Status = DepositPeriod | VotingPeriod | Passed | Rejected

  datatype Proposal = Proposal(status: Status, total: Coins, depositEnd: Time, votingEnd: Time)

  type Proposals = map<ID, Proposal>

  // The deposits on one proposal, by depositor.
  type Records = map<Addr, Coins>

  // The records of the proposals that still have them.
  type Deposits = map<ID, Records>

  // A key of one of the two queues; Encode gives its bytes.
  datatype Key = Key(active: bool, end: Time, id: ID)

  type Queue = map<Key, ID>

  predicate Live(p: Proposal) {
    p.status.DepositPeriod? || p.status.VotingPeriod?
  }

  // ---------- Deposits and the escrow ----------

  function Record(r: Records, a: Addr): Coins {
    if a in r then r[a] else []
  }

  ghost function Amounts(r: Records, d: Bytes): map<Addr, int> {
    map a | a in r :: Total(r[a], d)
  }

  ghost function Held(r: Records, d: Bytes): int {
    Sum(Amounts(r, d))
  }

  ghost function HeldBy(ds: Deposits, d: Bytes): map<ID, int> {
    map id | id in ds :: Held(ds[id], d)
  }

  ghost function AllHeld(ds: Deposits, d: Bytes): int {
    Sum(HeldBy(ds, d))
  }

  lemma HeldSet(r: Records, a: Addr, c: Coins, d: Bytes)
    ensures Held(r[a := c], d) == Held(r, d) - Total(Record(r, a), d) + Total(c, d)
  {
    SumSame(Amounts(r[a := c], d), Amounts(r, d)[a := Total(c, d)]);
    SumSet(Amounts(r, d), a, Total(c, d));
  }

  lemma HeldDrop(r: Records, a: Addr, d: Bytes)
    requires a in r
    ensures Held(r, d) == Held(r - {a}, d) + Total(r[a], d)
  {
    SumPick(Amounts(r, d), a);
    SumSame(Amounts(r, d) - {a}, Amounts(r - {a}, d));
  }

  lemma AllHeldSet(ds: Deposits, id: ID, r: Records, d: Bytes)
    requires id in ds
    ensures AllHeld(ds[id := r], d) == AllHeld(ds, d) - Held(ds[id], d) + Held(r, d)
  {
    SumSame(HeldBy(ds[id := r], d), HeldBy(ds, d)[id := Held(r, d)]);
    SumSet(HeldBy(ds, d), id, Held(r, d));
  }

  lemma AllHeldNew(ds: Deposits, id: ID, d: Bytes)
    requires id !in ds
    ensures AllHeld(ds[id := map[]], d) == AllHeld(ds, d)
  {
    SumSame(HeldBy(ds[id := map[]], d), HeldBy(ds, d)[id := 0]);
    SumSet(HeldBy(ds, d), id, 0);
  }

  lemma AllHeldDrop(ds: Deposits, id: ID, d: Bytes)
    requires id in ds && ds[id] == map[]
    ensures AllHeld(ds - {id}, d) == AllHeld(ds, d)
  {
    SumPick(HeldBy(ds, d), id);
    SumSame(HeldBy(ds, d) - {id}, HeldBy(ds - {id}, d));
  }

  predicate SoundRecords(r: Records) {
    forall a :: a in r ==> Sound(r[a])
  }

  predicate SoundDeposits(ds: Deposits) {
    forall id :: id in ds ==> SoundRecords(ds[id])
  }

  lemma HeldAtLeast(r: Records, a: Addr, d: Bytes)
    requires SoundRecords(r)
    ensures Held(r, d) >= Total(Record(r, a), d) && Held(r, d) >= 0
  {
    var m := Amounts(r, d);
    forall b | b in m ensures m[b] >= 0 {
      CanonicalTotals(r[b], d);
    }
    SumAtLeast(m, a);
  }

  lemma AllHeldAtLeast(ds: Deposits, id: ID, d: Bytes)
    requires SoundDeposits(ds) && id in ds
    ensures AllHeld(ds, d) >= Held(ds[id], d)
  {
    var m := HeldBy(ds, d);
    forall i | i in m ensures m[i] >= 0 {
      HeldAtLeast(ds[i], [], d);
    }
    SumAtLeast(m, id);
  }

  // What the escrow holds beyond the records.
  ghost function Surplus(accounts: Accounts, escrow: Addr, ds: Deposits, d: Bytes): int {
    Total(CoinsOf(accounts, escrow), d) - AllHeld(ds, d)
  }

  ghost predicate Money(accounts: Accounts, escrow: Addr, ds: Deposits) {
    AllSound(accounts) && SoundDeposits(ds) && NotOwn(ds, escrow) && forall d :: Surplus(accounts, escrow, ds, d) >= 0
  }

  // The escrow account is nobody's depositor.
  predicate NotOwn(ds: Deposits, escrow: Addr) {
    forall id :: id in ds ==> escrow !in ds[id]
  }

  lemma NewMoney(accounts: Accounts, escrow: Addr, ds: Deposits, id: ID, ds': Deposits)
    requires Money(accounts, escrow, ds) && id !in ds && ds' == ds[id := map[]]
    ensures Money(accounts, escrow, ds') && SameSurplus(accounts, ds, accounts, ds', escrow)
  {
    forall d ensures Surplus(accounts, escrow, ds', d) == Surplus(accounts, escrow, ds, d) {
      AllHeldNew(ds, id, d);
    }
  }

  lemma SurplusChain(a: Accounts, ds: Deposits, a': Accounts, ds': Deposits, a'': Accounts, ds'': Deposits, escrow: Addr)
    requires SameSurplus(a, ds, a', ds', escrow) && SameSurplus(a', ds', a'', ds'', escrow)
    ensures SameSurplus(a, ds, a'', ds'', escrow)
  {
    forall d ensures Surplus(a'', escrow, ds'', d) == Surplus(a, escrow, ds, d) {
      assert Surplus(a', escrow, ds', d) == Surplus(a, escrow, ds, d);
    }
  }

  lemma EmptyMoney(accounts: Accounts, escrow: Addr, ds: Deposits, id: ID)
    requires Money(accounts, escrow, ds) && id in ds && ds[id] == map[]
    ensures Money(accounts, escrow, ds - {id}) && SameSurplus(accounts, ds, accounts, ds - {id}, escrow)
  {
    forall d ensures Surplus(accounts, escrow, ds - {id}, d) == Surplus(accounts, escrow, ds, d) {
      AllHeldDrop(ds, id, d);
    }
  }

  ghost predicate SameSurplus(accounts: Accounts, ds: Deposits, accounts': Accounts, ds': Deposits, escrow: Addr) {
    forall d :: Surplus(accounts', escrow, ds', d) == Surplus(accounts, escrow, ds, d)
  }

  // A deposit: what reaches the escrow is what the records gain.
  lemma DepositSurplus(accounts: Accounts, escrow: Addr, ds: Deposits, id: ID, from: Addr, amt: Coins, d: Bytes)
    requires id in ds && from != escrow
    ensures Surplus(Sent(accounts, from, escrow, amt), escrow, ds[id := ds[id][from := Add(Record(ds[id], from), amt)]], d) ==
            Surplus(accounts, escrow, ds, d)
  {
    var c := Add(Record(ds[id], from), amt);
    SentBalances(accounts, from, escrow, amt, escrow, d);
    AllHeldSet(ds, id, ds[id][from := c], d);
    HeldSet(ds[id], from, c, d);
    AddTotal(Record(ds[id], from), amt, d);
  }

  // A deposit by the escrow account itself would raise the records and leave the escrow as it is.
  lemma OwnDepositLosesCover(accounts: Accounts, escrow: Addr, ds: Deposits, id: ID, amt: Coins, d: Bytes)
    requires id in ds
    ensures Surplus(Sent(accounts, escrow, escrow, amt), escrow, ds[id := ds[id][escrow := Add(Record(ds[id], escrow), amt)]], d) ==
            Surplus(accounts, escrow, ds, d) - Total(amt, d)
  {
    var c := Add(Record(ds[id], escrow), amt);
    SentBalances(accounts, escrow, escrow, amt, escrow, d);
    AllHeldSet(ds, id, ds[id][escrow := c], d);
    HeldSet(ds[id], escrow, c, d);
    AddTotal(Record(ds[id], escrow), amt, d);
  }

  lemma DepositMoney(spending: Spending, accounts: Accounts, escrow: Addr, ds: Deposits, id: ID, from: Addr, amt: Coins,
                     ds': Deposits)
    requires Money(accounts, escrow, ds) && id in ds && from != escrow
    requires Sending(spending, accounts, from, escrow, amt).Done?
    requires ds' == ds[id := ds[id][from := Add(Record(ds[id], from), amt)]]
    ensures Money(Sent(accounts, from, escrow, amt), escrow, ds')
    ensures SameSurplus(accounts, ds, Sent(accounts, from, escrow, amt), ds', escrow)
  {
    forall d ensures Surplus(Sent(accounts, from, escrow, amt), escrow, ds', d) == Surplus(accounts, escrow, ds, d) {
      DepositSurplus(accounts, escrow, ds, id, from, amt, d);
    }
    SendingSound(spending, accounts, from, escrow, amt);
    SoundAdd(Record(ds[id], from), amt);
  }

  // Paying one record out of the escrow: it cannot fail, and what leaves is what the records lose.
  lemma PaySurplus(accounts: Accounts, escrow: Addr, ds: Deposits, id: ID, a: Addr, to: Addr, d: Bytes)
    requires id in ds && a in ds[id] && to != escrow
    ensures Surplus(Sent(accounts, escrow, to, ds[id][a]), escrow, ds[id := ds[id] - {a}], d) == Surplus(accounts, escrow, ds, d)
  {
    SentBalances(accounts, escrow, to, ds[id][a], escrow, d);
    AllHeldSet(ds, id, ds[id] - {a}, d);
    HeldDrop(ds[id], a, d);
  }

  lemma PayCovered(accounts: Accounts, escrow: Addr, ds: Deposits, id: ID, a: Addr, d: Bytes)
    requires Money(accounts, escrow, ds) && id in ds && a in ds[id]
    ensures Total(CoinsOf(accounts, escrow), d) >= Total(ds[id][a], d)
  {
    AllHeldAtLeast(ds, id, d);
    HeldAtLeast(ds[id], a, d);
    assert Surplus(accounts, escrow, ds, d) >= 0;
  }

  lemma PayMoney(spending: Spending, accounts: Accounts, escrow: Addr, ds: Deposits, id: ID, a: Addr, to: Addr, ds': Deposits)
    requires Money(accounts, escrow, ds) && id in ds && a in ds[id] && to != escrow
    requires forall cs :: spending(escrow, cs) == Some(cs)
    requires ds' == ds[id := ds[id] - {a}]
    ensures Sending(spending, accounts, escrow, to, ds[id][a]).Done?
    ensures Money(Sent(accounts, escrow, to, ds[id][a]), escrow, ds')
    ensures SameSurplus(accounts, ds, Sent(accounts, escrow, to, ds[id][a]), ds', escrow)
  {
    forall d ensures Surplus(Sent(accounts, escrow, to, ds[id][a]), escrow, ds', d) == Surplus(accounts, escrow, ds, d) {
      PaySurplus(accounts, escrow, ds, id, a, to, d);
    }
    forall d ensures Total(CoinsOf(accounts, escrow), d) >= Total(ds[id][a], d) {
      PayCovered(accounts, escrow, ds, id, a, d);
    }
    SoundIsValid(ds[id][a]);
    SendingSucceeds(spending, accounts, escrow, to, ds[id][a]);
    SendingSound(spending, accounts, escrow, to, ds[id][a]);
  }

  // Where a denomination of a balance is malformed, a covered refund can fail, and EndBlocker panics.
  // A depositor with {1aaa, 1b} and 1ccc in escrow pays the fee 1aaa and keeps {1b}, which is not checked;
  // the 1ccc cannot come back to it.
  lemma RefundCanPanic(spending: Spending, escrow: Addr, a: Addr)
    requires a != escrow && forall cs :: spending(escrow, cs) == Some(cs)
    ensures var aaa, b, ccc := Coin([97, 97, 97], 1), Coin([98], 1), Coin([99, 99, 99], 1);
            var accounts := map[escrow := Account([ccc], 0), a := Account(Sub([aaa, b], [aaa]), 0)];
            IsValid([aaa, b]) && IsValid([aaa]) && !AnyNegative(Sub([aaa, b], [aaa])) && IsValid([ccc]) &&
            (forall d :: Total(CoinsOf(accounts, escrow), d) >= Total([ccc], d)) &&
            Sending(spending, accounts, escrow, a, [ccc]).Failed?
  {
    var aaa, b, ccc := Coin([97, 97, 97], 1), Coin([98], 1), Coin([99, 99, 99], 1);
    SubCanBeInvalid();
    var accounts := map[escrow := Account([ccc], 0), a := Account(Sub([aaa, b], [aaa]), 0)];
    WholeTaken(spending, accounts, escrow, [ccc]);
    assert CoinsOf(Took(accounts, escrow, [ccc]), a) == [b];
    assert !ValidDenom(b.denom) && !AtMost(ccc.denom, b.denom);
    GivingIff(Took(accounts, escrow, [ccc]), a, [ccc]);
  }

  lemma WholeTaken(spending: Spending, accounts: Accounts, a: Addr, amt: Coins)
    requires IsValid(amt) && CoinsOf(accounts, a) == amt && amt != [] && forall cs :: spending(a, cs) == Some(cs)
    ensures Taking(spending, accounts, a, amt).Done?
  {
    IsValidMeans(amt);
    NonZeroSame(amt);
    SubUndoesAdd([], amt);
  }

  // ---------- Who was paid ----------

  ghost predicate RefundedAt(before: Accounts, after: Accounts, escrow: Addr, done: Records, a: Addr, d: Bytes) {
    Total(CoinsOf(after, a), d) ==
    Total(CoinsOf(before, a), d) + Total(Record(done, a), d) - if a == escrow then Held(done, d) else 0
  }

  // Each record in done was sent back to its depositor, once.
  ghost predicate Refunded(before: Accounts, after: Accounts, escrow: Addr, done: Records) {
    forall a, d :: RefundedAt(before, after, escrow, done, a, d)
  }

  lemma RefundOne(before: Accounts, after: Accounts, escrow: Addr, done: Records, a: Addr, amt: Coins)
    requires Refunded(before, after, escrow, done) && a !in done
    ensures Refunded(before, Sent(after, escrow, a, amt), escrow, done[a := amt])
  {
    var after', done' := Sent(after, escrow, a, amt), done[a := amt];
    forall b, d ensures RefundedAt(before, after', escrow, done', b, d) {
      assert RefundedAt(before, after, escrow, done, b, d);
      SentBalances(after, escrow, a, amt, b, d);
      HeldSet(done, a, amt, d);
    }
  }

  ghost predicate BurnedAt(before: Accounts, after: Accounts, escrow: Addr, burner: Addr, done: Records, a: Addr, d: Bytes) {
    Total(CoinsOf(after, a), d) ==
    Total(CoinsOf(before, a), d) + (if a == burner then Held(done, d) else 0) - if a == escrow then Held(done, d) else 0
  }

  // Each record in done was sent to the burn address, once.
  ghost predicate Burned(before: Accounts, after: Accounts, escrow: Addr, burner: Addr, done: Records) {
    forall a, d :: BurnedAt(before, after, escrow, burner, done, a, d)
  }

  lemma BurnOne(before: Accounts, after: Accounts, escrow: Addr, burner: Addr, done: Records, a: Addr, amt: Coins)
    requires Burned(before, after, escrow, burner, done) && a !in done
    ensures Burned(before, Sent(after, escrow, burner, amt), escrow, burner, done[a := amt])
  {
    var after', done' := Sent(after, escrow, burner, amt), done[a := amt];
    forall b, d ensures BurnedAt(before, after', escrow, burner, done', b, d) {
      assert BurnedAt(before, after, escrow, burner, done, b, d);
      SentBalances(after, escrow, burner, amt, b, d);
      HeldSet(done, a, amt, d);
    }
  }

  lemma NothingPaid(before: Accounts, escrow: Addr, burner: Addr)
    ensures Refunded(before, before, escrow, map[]) && Burned(before, before, escrow, burner, map[])
  {
    forall d ensures Held(map[], d) == 0 {
      SumZero(Amounts(map[], d));
    }
  }

  // What some of the proposals owe one depositor, and what they hold.
  ghost function OwedBy(ds: Deposits, a: Addr, d: Bytes): map<ID, int> {
    map id | id in ds :: Total(Record(ds[id], a), d)
  }

  ghost function Owed(ds: Deposits, ids: set<ID>, a: Addr, d: Bytes): int {
    Sum(Restrict(OwedBy(ds, a, d), ids))
  }

  ghost function HeldIn(ds: Deposits, ids: set<ID>, d: Bytes): int {
    Sum(Restrict(HeldBy(ds, d), ids))
  }

  ghost predicate PaidAt(before: Accounts, after: Accounts, escrow: Addr, burner: Addr, ds: Deposits,
                         back: set<ID>, gone: set<ID>, a: Addr, d: Bytes) {
    Total(CoinsOf(after, a), d) ==
    Total(CoinsOf(before, a), d) + Owed(ds, back, a, d) + (if a == burner then HeldIn(ds, gone, d) else 0)
      - if a == escrow then HeldIn(ds, back, d) + HeldIn(ds, gone, d) else 0
  }

  // Every record of the proposals in back was sent to its depositor once, every record of those in gone
  // to the burn address once, all out of the escrow, and nothing else moved.
  ghost predicate Paid(before: Accounts, after: Accounts, escrow: Addr, burner: Addr, ds: Deposits, back: set<ID>, gone: set<ID>) {
    forall a, d :: PaidAt(before, after, escrow, burner, ds, back, gone, a, d)
  }

  lemma NonePaid(before: Accounts, escrow: Addr, burner: Addr, ds: Deposits)
    ensures Paid(before, before, escrow, burner, ds, {}, {})
  {
    forall a, d ensures PaidAt(before, before, escrow, burner, ds, {}, {}, a, d) {
      SumZero(Restrict(OwedBy(ds, a, d), {}));
      SumZero(Restrict(HeldBy(ds, d), {}));
    }
  }

  lemma PaidBack(before: Accounts, mid: Accounts, after: Accounts, escrow: Addr, burner: Addr, ds: Deposits,
                 back: set<ID>, gone: set<ID>, id: ID)
    requires Paid(before, mid, escrow, burner, ds, back, gone) && id in ds && id !in back
    requires Refunded(mid, after, escrow, ds[id])
    ensures Paid(before, after, escrow, burner, ds, back + {id}, gone)
  {
    var back' := back + {id};
    forall a, d ensures PaidAt(before, after, escrow, burner, ds, back', gone, a, d) {
      assert PaidAt(before, mid, escrow, burner, ds, back, gone, a, d);
      assert RefundedAt(mid, after, escrow, ds[id], a, d);
      RestrictOne(OwedBy(ds, a, d), back, id);
      RestrictOne(HeldBy(ds, d), back, id);
    }
  }

  lemma PaidOver(before: Accounts, mid: Accounts, after: Accounts, escrow: Addr, burner: Addr, ds: Deposits,
                 back: set<ID>, gone: set<ID>, id: ID)
    requires Paid(before, mid, escrow, burner, ds, back, gone) && id in ds && id !in gone
    requires Burned(mid, after, escrow, burner, ds[id])
    ensures Paid(before, after, escrow, burner, ds, back, gone + {id})
  {
    var gone' := gone + {id};
    forall a, d ensures PaidAt(before, after, escrow, burner, ds, back, gone', a, d) {
      assert PaidAt(before, mid, escrow, burner, ds, back, gone, a, d);
      assert BurnedAt(mid, after, escrow, burner, ds[id], a, d);
      RestrictOne(HeldBy(ds, d), gone, id);
    }
  }

  // First some are burned, then others are settled.
  lemma PaidChain(before: Accounts, mid: Accounts, after: Accounts, escrow: Addr, burner: Addr, ds: Deposits,
                  first: set<ID>, back: set<ID>, gone: set<ID>)
    requires first !! back && first !! gone
    requires Paid(before, mid, escrow, burner, ds, {}, first) && Paid(mid, after, escrow, burner, ds - first, back, gone)
    ensures Paid(before, after, escrow, burner, ds, back, first + gone)
  {
    var all := first + gone;
    forall a, d ensures PaidAt(before, after, escrow, burner, ds, back, all, a, d) {
      assert PaidAt(before, mid, escrow, burner, ds, {}, first, a, d);
      assert PaidAt(mid, after, escrow, burner, ds - first, back, gone, a, d);
      OthersOwe(ds, first, back, a, d);
      OthersOwe(ds, first, gone, a, d);
      SumZero(Restrict(OwedBy(ds, a, d), {}));
      SumZero(Restrict(HeldBy(ds, d), {}));
      RestrictUnion(HeldBy(ds, d), first, gone);
    }
  }

  lemma OthersOwe(ds: Deposits, first: set<ID>, ids: set<ID>, a: Addr, d: Bytes)
    requires first !! ids
    ensures Owed(ds - first, ids, a, d) == Owed(ds, ids, a, d) && HeldIn(ds - first, ids, d) == HeldIn(ds, ids, d)
  {
    SumSame(Restrict(OwedBy(ds - first, a, d), ids), Restrict(OwedBy(ds, a, d), ids));
    SumSame(Restrict(HeldBy(ds - first, d), ids), Restrict(HeldBy(ds, d), ids));
  }

  // An account without a record on a refunded proposal, neither escrow nor burner, keeps its balance.
  lemma BystanderKeeps(before: Accounts, after: Accounts, escrow: Addr, burner: Addr, ds: Deposits,
                       back: set<ID>, gone: set<ID>, a: Addr, d: Bytes)
    requires Paid(before, after, escrow, burner, ds, back, gone) && a != escrow && a != burner
    requires forall id :: id in ds && id in back ==> a !in ds[id]
    ensures Total(CoinsOf(after, a), d) == Total(CoinsOf(before, a), d)
  {
    assert PaidAt(before, after, escrow, burner, ds, back, gone, a, d);
    SumZero(Restrict(OwedBy(ds, a, d), back));
  }

  // ---------- Totals ----------

  // TotalDeposit is the sum of the records, and exactly the live proposals have records.
  ghost predicate Totals(ps: Proposals, ds: Deposits) {
    (forall id :: id in ds <==> id in ps && Live(ps[id])) &&
    forall id :: id in ds ==> Agrees(ps[id].total, ds[id])
  }

  ghost predicate Agrees(total: Coins, r: Records) {
    forall d :: Total(total, d) == Held(r, d)
  }

  lemma DepositTotals(ps: Proposals, ds: Deposits, id: ID, from: Addr, amt: Coins, p: Proposal)
    requires Totals(ps, ds) && id in ds && Live(p) && p.total == Add(ps[id].total, amt)
    ensures Totals(ps[id := p], ds[id := ds[id][from := Add(Record(ds[id], from), amt)]])
  {
    var c := Add(Record(ds[id], from), amt);
    forall d ensures Total(p.total, d) == Held(ds[id][from := c], d) {
      AddTotal(ps[id].total, amt, d);
      AddTotal(Record(ds[id], from), amt, d);
      HeldSet(ds[id], from, c, d);
      assert Agrees(ps[id].total, ds[id]);
    }
    assert Agrees(p.total, ds[id][from := c]);
  }

  lemma NewTotals(ps: Proposals, ds: Deposits, id: ID, p: Proposal)
    requires Totals(ps, ds) && id !in ps && Live(p) && p.total == []
    ensures Totals(ps[id := p], ds[id := map[]])
  {
    forall d ensures Total([], d) == Held(map[], d) {
      SumZero(Amounts(map[], d));
    }
    assert Agrees([], map[]);
  }

  // IDs are given out in order.
  ghost predicate Below(ps: Proposals, n: nat) {
    forall id :: id in ps ==> id < n
  }

  lemma BelowSet(ps: Proposals, n: nat, id: ID, p: Proposal)
    requires Below(ps, n)
    ensures id < n ==> Below(ps[id := p], n)
  {}

  lemma BelowStays(ps: Proposals, ps': Proposals, n: nat)
    requires Below(ps, n) && ps'.Keys <= ps.Keys
    ensures Below(ps', n)
  {
    forall id | id in ps' ensures id < n { assert id in ps'.Keys; }
  }

  lemma DoneTotals(ps: Proposals, ds: Deposits, id: ID, p: Proposal)
    requires Totals(ps, ds) && id in ps && !Live(p)
    ensures Totals(ps[id := p], ds - {id}) && Totals(ps - {id}, ds - {id})
  {}

  // ---------- Queues ----------

  function QueueName(active: bool): Bytes {
    if active then ACTIVE else INACTIVE
  }

  function Encode(k: Key): Bytes {
    QueueKey(QueueName(k.active), k.end, k.id)
  }

  lemma EncodeHead(k: Key)
    ensures Encode(k) != [] && Encode(k)[0] == QueueName(k.active)[0] && ACTIVE[0] != INACTIVE[0]
  {}

  // Keys with the same bytes are the same, so a store of bytes is a map of these keys.
  lemma EncodeInjective(k: Key, k': Key)
    requires Encode(k) == Encode(k')
    ensures k == k'
  {
    EncodeHead(k);
    EncodeHead(k');
    QueueKeyInjective(QueueName(k.active), k.end, k.id, k'.end, k'.id);
  }

  // The iterator over one queue up to now visits that queue's keys with an end time not after now.
  lemma EncodeRange(active: bool, now: Time, k: Key)
    ensures InQueueRange(QueueName(active), now, Encode(k)) <==> k.active == active && !Earlier(now, k.end)
  {
    EncodeHead(k);
    QueueRange(QueueName(k.active), k.end, k.id, now);
    if k.active != active { OtherKeysOutside(QueueName(active), now, Encode(k)); }
  }

  // Where a live proposal is queued.
  function KeyOf(p: Proposal, id: ID): Key {
    if p.status.DepositPeriod? then Key(false, p.depositEnd, id) else Key(true, p.votingEnd, id)
  }

  // Exactly the live proposals are queued, each once, where its status and end time put it.
  ghost predicate Queued(ps: Proposals, queue: Queue) {
    (forall id :: id in ps && Live(ps[id]) ==> KeyOf(ps[id], id) in queue) &&
    (forall k :: k in queue ==> queue[k] == k.id && k.id in ps && Live(ps[k.id]) && k == KeyOf(ps[k.id], k.id))
  }

  lemma QueueNew(ps: Proposals, queue: Queue, id: ID, p: Proposal)
    requires Queued(ps, queue) && (id in ps ==> !Live(ps[id])) && Live(p)
    ensures Queued(ps[id := p], queue[KeyOf(p, id) := id])
  {}

  lemma QueueDone(ps: Proposals, queue: Queue, id: ID, p: Proposal)
    requires Queued(ps, queue) && id in ps && Live(ps[id]) && !Live(p)
    ensures Queued(ps[id := p], queue - {KeyOf(ps[id], id)}) && Queued(ps - {id}, queue - {KeyOf(ps[id], id)})
  {}

  lemma QueueSame(ps: Proposals, queue: Queue, id: ID, p: Proposal)
    requires Queued(ps, queue) && id in ps && Live(ps[id]) && p == ps[id].(total := p.total)
    ensures Queued(ps[id := p], queue)
  {}

  // Due in one of the queues at a time: its period ended then or before.
  predicate Due(p: Proposal, active: bool, now: Time) {
    Live(p) && p.status.VotingPeriod? == active && !Earlier(now, if active then p.votingEnd else p.depositEnd)
  }

  function DueKeys(queue: Queue, active: bool, now: Time): set<Key> {
    set k | k in queue && InQueueRange(QueueName(active), now, Encode(k))
  }

  // What the byte range of the iterator selects.
  ghost predicate Selects(due: set<Key>, queue: Queue, active: bool, now: Time) {
    forall k :: k in due <==> k in queue && k.active == active && !Earlier(now, k.end)
  }

  lemma DueKeysSelect(queue: Queue, active: bool, now: Time)
    ensures Selects(DueKeys(queue, active, now), queue, active, now)
  {
    forall k ensures k in DueKeys(queue, active, now) <==> k in queue && k.active == active && !Earlier(now, k.end) {
      EncodeRange(active, now, k);
    }
  }

  // The selected keys are those of the proposals that are due.
  lemma SelectedAreDue(ps: Proposals, queue: Queue, active: bool, now: Time, due: set<Key>)
    requires Queued(ps, queue) && Selects(due, queue, active, now)
    ensures forall k :: k in due ==> k in queue && k.id in ps && Due(ps[k.id], active, now) && k == KeyOf(ps[k.id], k.id)
    ensures due == {} ==> forall id :: id in ps ==> !Due(ps[id], active, now)
  {
    forall id | id in ps && Due(ps[id], active, now) ensures KeyOf(ps[id], id) in due {
      assert KeyOf(ps[id], id) in queue;
    }
  }

  function DueIDs(ps: Proposals, active: bool, now: Time): set<ID> {
    set id | id in ps && Due(ps[id], active, now)
  }

  lemma SelectsDrop(due: set<Key>, queue: Queue, active: bool, now: Time, k: Key)
    requires Selects(due, queue, active, now)
    ensures Selects(due - {k}, queue - {k}, active, now)
  {}
}

module Gov {
  import opened Bytes
  import opened Coins
  import opened Bank
  import opened GovKeys
  import opened GovState
  import opened MapSum
  import opened Tally

  type Votes = map<ID, map<Addr, VoteOption>>

  datatype Books = Books(accounts: Accounts, proposals: Proposals, deposits: Deposits, votes: Votes)

  class Keeper {
    var proposals: Proposals
    var deposits: Deposits
    var queue: Queue
    var accounts: Accounts
    var nextID: nat
    var votes: Votes

    const spending: Spending
    const escrow: Addr
    const burner: Addr
    const minDeposit: Coins

    // The escrow covers the records. What a payout needs and keeps.
    ghost predicate Solvent()
      reads `accounts, `deposits
    {
      escrow != burner && (forall cs :: spending(escrow, cs) == Some(cs)) && Money(accounts, escrow, deposits)
    }

    ghost function State(): Books
      reads `accounts, `proposals, `deposits, `votes
    {
      Books(accounts, proposals, deposits, votes)
    }

    ghost predicate Valid()
      reads this
    {
      Settled() && Below(proposals, nextID) && AllCast(votes)
    }

    ghost predicate Settled()
      reads `proposals, `deposits, `queue, `accounts
    {
      Solvent() && Totals(proposals, deposits) && Queued(proposals, queue)
    }

    // At genesis: the escrow and burn addresses are two accounts without vesting.
    constructor (accounts: Accounts, spending: Spending, escrow: Addr, burner: Addr, minDeposit: Coins, firstID: nat)
      requires AllSound(accounts) && escrow != burner && forall cs :: spending(escrow, cs) == Some(cs)
      ensures Valid() && proposals == map[] && this.accounts == accounts
    {
      proposals, deposits, queue, votes, nextID := map[], map[], map[], map[], firstID;
      this.accounts, this.spending, this.escrow, this.burner, this.minDeposit := accounts, spending, escrow, burner, minDeposit;
      new;
      Opening(accounts, escrow);
    }

    method NewTextProposal(depositEnd: Time) returns (id: ID)
      requires Valid() && nextID < 0xFFFF_FFFF_FFFF_FFFF
      modifies `proposals, `deposits, `queue, `nextID
      ensures Valid() && id == old(nextID) && nextID == id + 1
      ensures proposals == old(proposals)[id := Proposal(DepositPeriod, [], depositEnd, ZEROTIME)]
      ensures deposits == old(deposits)[id := map[]]
      ensures SameSurplus(accounts, old(deposits), accounts, deposits, escrow)
    {
      id := nextID;
      nextID := nextID + 1;
      assert Below(proposals, nextID);
      var p := Proposal(DepositPeriod, [], depositEnd, ZEROTIME);
      NewTotals(proposals, deposits, id, p);
      QueueNew(proposals, queue, id, p);
      NewMoney(accounts, escrow, deposits, id, deposits[id := map[]]);
      BelowSet(proposals, nextID, id, p);
      proposals := proposals[id := p];
      deposits := deposits[id := map[]];
      queue := queue[Key(false, depositEnd, id) := id];
    }

    // activateVotingPeriod
    method ActivateVotingPeriod(id: ID, votingEnd: Time)
      requires Queued(proposals, queue) && id in proposals && proposals[id].status.DepositPeriod?
      modifies `proposals, `queue
      ensures Queued(proposals, queue)
      ensures proposals == old(proposals)[id := old(proposals)[id].(status := VotingPeriod, votingEnd := votingEnd)]
    {
      var p := proposals[id].(status := VotingPeriod, votingEnd := votingEnd);
      ghost var q := proposals[id].(status := Rejected);
      QueueDone(proposals, queue, id, q);
      QueueNew(proposals[id := q], queue - {KeyOf(proposals[id], id)}, id, p);
      SetTwice(proposals, id, q, p);
      proposals := proposals[id := p];
      queue := queue - {Key(false, p.depositEnd, id)};
      queue := queue[Key(true, votingEnd, id) := id];
    }

    // The proposal's side of a deposit.
    method RaiseTotal(id: ID, amt: Coins, votingEnd: Time) returns (activated: bool)
      requires Queued(proposals, queue) && id in proposals && Live(proposals[id])
      modifies `proposals, `queue
      ensures Queued(proposals, queue)
      ensures proposals == old(proposals)[id := Raised(old(proposals)[id], amt, minDeposit, votingEnd)]
      ensures proposals.Keys <= old(proposals.Keys) && activated == (proposals[id].status != old(proposals)[id].status)
    {
      var p := proposals[id].(total := Add(proposals[id].total, amt));
      QueueSame(proposals, queue, id, p);
      ghost var was := proposals;
      proposals := proposals[id := p];
      activated := p.status.DepositPeriod? && IsAllGTE(p.total, minDeposit);
      if activated {
        ActivateVotingPeriod(id, votingEnd);
        SetTwice(was, id, p, proposals[id]);
      }
    }

    // The money's side of a deposit.
    method TakeDeposit(id: ID, from: Addr, amt: Coins)
      requires Solvent() && from != escrow && id in deposits && Sending(spending, accounts, from, escrow, amt).Done?
      modifies `deposits, `accounts
      ensures Solvent() && accounts == Sent(old(accounts), from, escrow, amt)
      ensures deposits == old(deposits)[id := old(deposits)[id][from := Add(Record(old(deposits)[id], from), amt)]]
      ensures SameSurplus(old(accounts), old(deposits), accounts, deposits, escrow)
    {
      var r := deposits[id];
      var c := if from in r then Add(r[from], amt) else amt;
      FirstDeposit(spending, accounts, escrow, r, from, amt);
      DepositMoney(spending, accounts, escrow, deposits, id, from, amt, deposits[id := r[from := c]]);
      accounts := Sent(accounts, from, escrow, amt);
      deposits := deposits[id := r[from := c]];
    }

    // AddDeposit past its checks.
    method Deposit(id: ID, from: Addr, amt: Coins, votingEnd: Time) returns (activated: bool)
      requires Settled() && from != escrow && id in deposits && Sending(spending, accounts, from, escrow, amt).Done?
      modifies `proposals, `queue, `deposits, `accounts
      ensures Settled() && proposals.Keys <= old(proposals.Keys) && accounts == Sent(old(accounts), from, escrow, amt)
      ensures deposits == old(deposits)[id := old(deposits)[id][from := Add(Record(old(deposits)[id], from), amt)]]
      ensures proposals == old(proposals)[id := Raised(old(proposals)[id], amt, minDeposit, votingEnd)]
      ensures activated == (proposals[id].status != old(proposals)[id].status)
      ensures SameSurplus(old(accounts), old(deposits), accounts, deposits, escrow)
    {
      ghost var p := Raised(proposals[id], amt, minDeposit, votingEnd);
      DepositTotals(proposals, deposits, id, from, amt, p);
      TakeDeposit(id, from, amt);
      activated := RaiseTotal(id, amt, votingEnd);
      assert Totals(proposals, deposits);
    }

    // AddDeposit. A failed transfer fails the transaction, which discards what it wrote.
    method AddDeposit(id: ID, from: Addr, amt: Coins, votingEnd: Time) returns (ok: bool, activated: bool)
      requires Valid() && from != escrow
      modifies `proposals, `queue, `deposits, `accounts
      ensures Valid()
      ensures ok <==> id in old(proposals) && Live(old(proposals)[id]) && Sending(spending, old(accounts), from, escrow, amt).Done?
      ensures !ok ==> !activated && accounts == old(accounts) && proposals == old(proposals) && deposits == old(deposits)
      ensures ok ==> accounts == Sent(old(accounts), from, escrow, amt) && id in old(deposits) &&
                     deposits == old(deposits)[id := old(deposits)[id][from := Add(Record(old(deposits)[id], from), amt)]] &&
                     proposals == old(proposals)[id := Raised(old(proposals)[id], amt, minDeposit, votingEnd)] &&
                     activated == (proposals[id].status != old(proposals)[id].status)
      ensures SameSurplus(old(accounts), old(deposits), accounts, deposits, escrow)
    {
      ok, activated := false, false;
      if id !in proposals || !Live(proposals[id]) { return; }
      if !Sending(spending, accounts, from, escrow, amt).Done? { return; }
      ok := true;
      activated := Deposit(id, from, amt, votingEnd);
      BelowStays(old(proposals), proposals, nextID);
    }

    // AddVote: only during the voting period; a voter's later vote replaces the earlier.
    method AddVote(id: ID, voter: Addr, option: VoteOption) returns (ok: bool)
      requires Valid()
      modifies `votes
      ensures Valid()
      ensures ok <==> id in proposals && proposals[id].status.VotingPeriod? && option != Empty
      ensures !ok ==> votes == old(votes)
      ensures ok ==> id in votes && votes == old(votes)[id := votes[id]] &&
                     votes[id] == (if id in old(votes) then old(votes)[id] else map[])[voter := option]
    {
      if id !in proposals { return false; }
      if !proposals[id].status.VotingPeriod? { return false; }
      if option == Empty { return false; }
      votes := votes[id := VotesOf(votes, id)[voter := option]];
      return true;
    }

    // handleMsgSubmitProposal
    method SubmitProposal(from: Addr, amt: Coins, depositEnd: Time, votingEnd: Time) returns (ok: bool)
      requires Valid() && from != escrow && nextID < 0xFFFF_FFFF_FFFF_FFFF
      modifies this
      ensures Valid()
      ensures ok <==> Sending(spending, old(accounts), from, escrow, amt).Done?
      ensures ok ==> accounts == Sent(old(accounts), from, escrow, amt) && nextID == old(nextID) + 1
      ensures ok ==> proposals == old(proposals)[old(nextID) := Opened(amt, minDeposit, depositEnd, votingEnd)] &&
                     deposits == old(deposits)[old(nextID) := map[from := Add([], amt)]]
      ensures !ok ==> accounts == old(accounts)
      ensures SameSurplus(old(accounts), old(deposits), accounts, deposits, escrow)
    {
      var id := NewTextProposal(depositEnd);
      ghost var ds := deposits;
      var activated;
      ok, activated := AddDeposit(id, from, amt, votingEnd);
      SetTwice(old(proposals), id, Proposal(DepositPeriod, [], depositEnd, ZEROTIME),
               Opened(amt, minDeposit, depositEnd, votingEnd));
      SetTwice(old(deposits), id, map[], map[from := Add([], amt)]);
      SurplusChain(old(accounts), old(deposits), old(accounts), ds, accounts, deposits, escrow);
    }

    // The same inside a transaction: a failure leaves nothing behind.
    method Submit(from: Addr, amt: Coins, depositEnd: Time, votingEnd: Time) returns (ok: bool)
      requires Valid() && from != escrow && nextID < 0xFFFF_FFFF_FFFF_FFFF
      modifies this
      ensures Valid()
      ensures ok <==> Sending(spending, old(accounts), from, escrow, amt).Done?
      ensures ok ==> nextID == old(nextID) + 1 && accounts == Sent(old(accounts), from, escrow, amt) &&
                     proposals == old(proposals)[old(nextID) := Opened(amt, minDeposit, depositEnd, votingEnd)] &&
                     deposits == old(deposits)[old(nextID) := map[from := Add([], amt)]]
      ensures !ok ==> proposals == old(proposals) && deposits == old(deposits) && queue == old(queue) &&
                      accounts == old(accounts) && nextID == old(nextID)
      ensures SameSurplus(old(accounts), old(deposits), accounts, deposits, escrow)
    {
      var ps, ds, q, n := proposals, deposits, queue, nextID;
      ok := SubmitProposal(from, amt, depositEnd, votingEnd);
      if !ok {
        proposals, deposits, queue, nextID := ps, ds, q, n;
      }
    }

    // One round of RefundDeposits or DeleteDeposits: the transfer out of the escrow, which would panic if
    // it failed, and the deletion of the record.
    method PayOne(id: ID, a: Addr, to: Addr) returns (panicked: bool)
      requires Solvent() && id in deposits && a in deposits[id] && to != escrow
      modifies `accounts, `deposits
      ensures !panicked && Solvent()
      ensures accounts == Sent(old(accounts), escrow, to, old(deposits)[id][a])
      ensures deposits == old(deposits)[id := old(deposits)[id] - {a}]
      ensures SameSurplus(old(accounts), old(deposits), accounts, deposits, escrow)
    {
      var amt := deposits[id][a];
      PayMoney(spending, accounts, escrow, deposits, id, a, to, deposits[id := deposits[id] - {a}]);
      if !Sending(spending, accounts, escrow, to, amt).Done? { return true; }
      accounts := Sent(accounts, escrow, to, amt);
      deposits := deposits[id := deposits[id] - {a}];
      return false;
    }

    // The records left of a proposal that is being paid out, and those done.
    ghost predicate Paying(id: ID, ds: Deposits, done: Records)
      reads `deposits
    {
      id in ds && id in deposits && deposits == ds[id := deposits[id]] &&
      done.Keys !! deposits[id].Keys && done + deposits[id] == ds[id]
    }

    method RefundDeposits(id: ID) returns (panicked: bool)
      requires Solvent() && id in deposits
      modifies `accounts, `deposits
      ensures !panicked && Solvent() && deposits == old(deposits) - {id}
      ensures Refunded(old(accounts), accounts, escrow, old(deposits)[id])
      ensures SameSurplus(old(accounts), old(deposits), accounts, deposits, escrow)
    {
      panicked := false;
      ghost var done: Records := map[];
      NothingPaid(accounts, escrow, burner);
      while deposits[id] != map[]
        invariant !panicked && Solvent() && Paying(id, old(deposits), done)
        invariant Refunded(old(accounts), accounts, escrow, done)
        invariant SameSurplus(old(accounts), old(deposits), accounts, deposits, escrow)
        decreases if id in deposits then deposits[id].Keys else {}
      {
        var a :| a in deposits[id];
        ghost var accs, ds := accounts, deposits;
        RefundOne(old(accounts), accounts, escrow, done, a, deposits[id][a]);
        done := PaidOne(old(deposits), deposits, id, done, a);
        panicked := PayOne(id, a, a);
        SurplusChain(old(accounts), old(deposits), accs, ds, accounts, deposits, escrow);
      }
      assert done + map[] == done;
      ghost var ds := deposits;
      EmptyMoney(accounts, escrow, deposits, id);
      deposits := deposits - {id};
      SurplusChain(old(accounts), old(deposits), accounts, ds, accounts, deposits, escrow);
    }

    method DeleteDeposits(id: ID) returns (panicked: bool)
      requires Solvent() && id in deposits
      modifies `accounts, `deposits
      ensures !panicked && Solvent() && deposits == old(deposits) - {id}
      ensures Burned(old(accounts), accounts, escrow, burner, old(deposits)[id])
      ensures SameSurplus(old(accounts), old(deposits), accounts, deposits, escrow)
    {
      panicked := false;
      ghost var done: Records := map[];
      NothingPaid(accounts, escrow, burner);
      while deposits[id] != map[]
        invariant !panicked && Solvent() && Paying(id, old(deposits), done)
        invariant Burned(old(accounts), accounts, escrow, burner, done)
        invariant SameSurplus(old(accounts), old(deposits), accounts, deposits, escrow)
        decreases if id in deposits then deposits[id].Keys else {}
      {
        var a :| a in deposits[id];
        ghost var accs, ds := accounts, deposits;
        BurnOne(old(accounts), accounts, escrow, burner, done, a, deposits[id][a]);
        done := PaidOne(old(deposits), deposits, id, done, a);
        panicked := PayOne(id, a, burner);
        SurplusChain(old(accounts), old(deposits), accs, ds, accounts, deposits, escrow);
      }
      assert done + map[] == done;
      ghost var ds := deposits;
      EmptyMoney(accounts, escrow, deposits, id);
      deposits := deposits - {id};
      SurplusChain(old(accounts), old(deposits), accounts, ds, accounts, deposits, escrow);
    }

    method DeleteProposal(id: ID)
      requires Queued(proposals, queue) && id in proposals && proposals[id].status.DepositPeriod?
      modifies `proposals, `queue
      ensures Queued(proposals, queue) && proposals.Keys <= old(proposals.Keys)
      ensures proposals == old(proposals) - {id} && queue == old(queue) - {KeyOf(old(proposals)[id], id)}
    {
      var p := proposals[id];
      QueueDone(proposals, queue, id, p.(status := Rejected));
      OneKey(proposals, queue, id);
      queue := queue - {Key(false, p.depositEnd, id)};
      queue := queue - {Key(true, p.votingEnd, id)};
      proposals := proposals - {id};
    }

    // An expired proposal that never reached the minimum deposit.
    method DropProposal(id: ID) returns (panicked: bool)
      requires Valid() && id in proposals && proposals[id].status.DepositPeriod?
      modifies `proposals, `queue, `accounts, `deposits
      ensures !panicked && Valid()
      ensures proposals == old(proposals) - {id} && queue == old(queue) - {KeyOf(old(proposals)[id], id)}
      ensures id in old(deposits) && deposits == old(deposits) - {id}
      ensures Burned(old(accounts), accounts, escrow, burner, old(deposits)[id])
      ensures SameSurplus(old(accounts), old(deposits), accounts, deposits, escrow)
    {
      DoneTotals(proposals, deposits, id, proposals[id].(status := Rejected));
      DeleteProposal(id);
      panicked := DeleteDeposits(id);
      BelowStays(old(proposals), proposals, nextID);
      assert Totals(proposals, deposits);
    }

    // Refund or burn.
    method Settle(id: ID, passes: bool) returns (panicked: bool)
      requires Solvent() && id in deposits
      modifies `accounts, `deposits
      ensures !panicked && Solvent() && deposits == old(deposits) - {id}
      ensures passes ==> Refunded(old(accounts), accounts, escrow, old(deposits)[id])
      ensures !passes ==> Burned(old(accounts), accounts, escrow, burner, old(deposits)[id])
      ensures SameSurplus(old(accounts), old(deposits), accounts, deposits, escrow)
    {
      if passes {
        panicked := RefundDeposits(id);
      } else {
        panicked := DeleteDeposits(id);
      }
    }

    method CloseProposal(id: ID, passes: bool)
      requires Queued(proposals, queue) && id in proposals && proposals[id].status.VotingPeriod?
      modifies `proposals, `queue
      ensures Queued(proposals, queue) && proposals.Keys <= old(proposals.Keys)
      ensures proposals == old(proposals)[id := Closed(old(proposals)[id], passes)]
      ensures queue == old(queue) - {KeyOf(old(proposals)[id], id)}
    {
      var p := Closed(proposals[id], passes);
      QueueDone(proposals, queue, id, p);
      queue := queue - {Key(true, p.votingEnd, id)};
      proposals := proposals[id := p];
    }

    // A proposal whose voting period is over, after the tally.
    method FinishProposal(id: ID, passes: bool) returns (panicked: bool)
      requires Valid() && id in proposals && proposals[id].status.VotingPeriod?
      modifies `proposals, `queue, `accounts, `deposits
      ensures !panicked && Valid()
      ensures proposals == old(proposals)[id := Closed(old(proposals)[id], passes)]
      ensures queue == old(queue) - {KeyOf(old(proposals)[id], id)} && id in old(deposits)
      ensures deposits == old(deposits) - {id}
      ensures passes ==> Refunded(old(accounts), accounts, escrow, old(deposits)[id])
      ensures !passes ==> Burned(old(accounts), accounts, escrow, burner, old(deposits)[id])
      ensures SameSurplus(old(accounts), old(deposits), accounts, deposits, escrow)
    {
      ghost var p := Closed(proposals[id], passes);
      DoneTotals(proposals, deposits, id, p);
      panicked := Settle(id, passes);
      CloseProposal(id, passes);
      BelowStays(old(proposals), proposals, nextID);
      assert Totals(proposals, deposits);
    }

    // One round of the first loop of EndBlocker.
    method DropNext(left: set<Key>, now: Time, ghost b: Books, ghost done: set<ID>)
      returns (panicked: bool, left': set<Key>, ghost done': set<ID>)
      requires left != {} && Valid() && Selects(left, queue, false, now) && Expired(b, State(), escrow, burner, now, done)
      modifies `proposals, `queue, `accounts, `deposits
      ensures !panicked && Valid() && left' < left
      ensures Selects(left', queue, false, now) && Expired(b, State(), escrow, burner, now, done')
    {
      var k :| k in left;
      SelectedAreDue(proposals, queue, false, now, left);
      SelectsDrop(left, queue, false, now, k);
      ghost var mid := State();
      var id := queue[k];
      panicked := DropProposal(id);
      ExpireOne(b, mid, State(), escrow, burner, now, done, id);
      left', done' := left - {k}, done + {id};
    }

    // The first loop. The iterator's keys are fixed when it is made.
    method DropExpired(now: Time) returns (panicked: bool)
      requires Valid()
      modifies `proposals, `queue, `accounts, `deposits
      ensures !panicked && Valid() && NoneDue(proposals, false, now)
      ensures Expired(old(State()), State(), escrow, burner, now, DueIDs(old(proposals), false, now))
    {
      panicked := false;
      var left := DueKeys(queue, false, now);
      DueKeysSelect(queue, false, now);
      ghost var done: set<ID> := {};
      NoneExpired(State(), escrow, burner, now);
      while left != {}
        invariant !panicked && Valid() && Selects(left, queue, false, now)
        invariant Expired(old(State()), State(), escrow, burner, now, done)
        decreases left
      {
        panicked, left, done := DropNext(left, now, old(State()), done);
      }
      SelectedAreDue(proposals, queue, false, now, left);
      AllDropped(old(State()), State(), escrow, burner, now, done);
    }

    // One proposal of the second loop: the votes are tallied and deleted, the deposits paid out.
    method TallyAndClose(id: ID, stake: Stake) returns (panicked: bool, passes: bool)
      requires Valid() && Staked(stake.vals, stake.ds) && id in proposals && proposals[id].status.VotingPeriod?
      modifies `proposals, `queue, `accounts, `deposits, `votes
      ensures !panicked && Valid() && votes == old(votes) - {id}
      ensures passes == Carries(VotesOf(old(votes), id), stake)
      ensures proposals == old(proposals)[id := Closed(old(proposals)[id], passes)]
      ensures queue == old(queue) - {KeyOf(old(proposals)[id], id)} && id in old(deposits)
      ensures deposits == old(deposits) - {id}
      ensures passes ==> Refunded(old(accounts), accounts, escrow, old(deposits)[id])
      ensures !passes ==> Burned(old(accounts), accounts, escrow, burner, old(deposits)[id])
      ensures SameSurplus(old(accounts), old(deposits), accounts, deposits, escrow)
    {
      panicked, passes := TallyStored(VotesOf(votes, id), stake);
      votes := votes - {id};
      panicked := FinishProposal(id, passes);
    }

    method TallyNext(left: set<Key>, now: Time, stake: Stake, ghost b: Books, ghost passed: set<ID>, ghost rejected: set<ID>)
      returns (panicked: bool, left': set<Key>, ghost passed': set<ID>, ghost rejected': set<ID>)
      requires left != {} && Valid() && Staked(stake.vals, stake.ds) && Selects(left, queue, true, now)
      requires Tallied(b, State(), escrow, burner, stake, now, passed, rejected)
      modifies `proposals, `queue, `accounts, `deposits, `votes
      ensures !panicked && Valid() && left' < left
      ensures Selects(left', queue, true, now) && Tallied(b, State(), escrow, burner, stake, now, passed', rejected')
    {
      var k :| k in left;
      SelectedAreDue(proposals, queue, true, now, left);
      SelectsDrop(left, queue, true, now, k);
      ghost var mid := State();
      var id := queue[k];
      var passes;
      panicked, passes := TallyAndClose(id, stake);
      left' := left - {k};
      if passes {
        PassOne(b, mid, State(), escrow, burner, stake, now, passed, rejected, id);
        passed', rejected' := passed + {id}, rejected;
      } else {
        RejectOne(b, mid, State(), escrow, burner, stake, now, passed, rejected, id);
        passed', rejected' := passed, rejected + {id};
      }
    }

    // The second loop of EndBlocker.
    method FinishVoted(now: Time, stake: Stake) returns (panicked: bool)
      requires Valid() && Staked(stake.vals, stake.ds)
      modifies `proposals, `queue, `accounts, `deposits, `votes
      ensures !panicked && Valid() && NoneDue(proposals, true, now)
      ensures var due := DueIDs(old(proposals), true, now);
              var passing := Passing(due, old(votes), stake);
              Tallied(old(State()), State(), escrow, burner, stake, now, passing, due - passing)
    {
      panicked := false;
      var left := DueKeys(queue, true, now);
      DueKeysSelect(queue, true, now);
      ghost var passed: set<ID>, rejected: set<ID> := {}, {};
      NoneTallied(State(), escrow, burner, stake, now);
      while left != {}
        invariant !panicked && Valid() && Selects(left, queue, true, now)
        invariant Tallied(old(State()), State(), escrow, burner, stake, now, passed, rejected)
        decreases left
      {
        panicked, left, passed, rejected := TallyNext(left, now, stake, old(State()), passed, rejected);
      }
      SelectedAreDue(proposals, queue, true, now, left);
      AllTallied(old(State()), State(), escrow, burner, stake, now, passed, rejected);
    }

    // EndBlocker
    method EndBlock(now: Time, stake: Stake) returns (panicked: bool)
      requires Valid() && Staked(stake.vals, stake.ds)
      modifies `proposals, `queue, `accounts, `deposits, `votes
      ensures !panicked && Valid()
      ensures NoneDue(proposals, false, now) && NoneDue(proposals, true, now)
      ensures Ended(old(State()), State(), escrow, burner, stake, now)
    {
      panicked := DropExpired(now);
      ghost var mid := State();
      panicked := FinishVoted(now, stake);
      EndedBoth(old(State()), mid, State(), escrow, burner, stake, now);
    }
  }

  // ---------- What EndBlocker does to the proposals ----------

  ghost predicate NoneDue(ps: Proposals, active: bool, now: Time) {
    forall id :: id in ps ==> !Due(ps[id], active, now)
  }

  // The first loop has dropped these.
  ghost predicate Expired(b: Books, c: Books, escrow: Addr, burner: Addr, now: Time, done: set<ID>) {
    done <= DueIDs(b.proposals, false, now) && c.votes == b.votes &&
    c.proposals == b.proposals - done && c.deposits == b.deposits - done &&
    Paid(b.accounts, c.accounts, escrow, burner, b.deposits, {}, done) &&
    SameSurplus(b.accounts, b.deposits, c.accounts, c.deposits, escrow)
  }

  lemma NoneExpired(b: Books, escrow: Addr, burner: Addr, now: Time)
    ensures Expired(b, b, escrow, burner, now, {})
  {
    NonePaid(b.accounts, escrow, burner, b.deposits);
    assert b.proposals - {} == b.proposals && b.deposits - {} == b.deposits;
  }

  lemma ExpireOne(b: Books, c: Books, c': Books, escrow: Addr, burner: Addr, now: Time, done: set<ID>, id: ID)
    requires Expired(b, c, escrow, burner, now, done) && id in c.proposals && Due(c.proposals[id], false, now) && id in c.deposits
    requires c'.votes == c.votes && c'.proposals == c.proposals - {id} && c'.deposits == c.deposits - {id}
    requires Burned(c.accounts, c'.accounts, escrow, burner, c.deposits[id])
    requires SameSurplus(c.accounts, c.deposits, c'.accounts, c'.deposits, escrow)
    ensures Expired(b, c', escrow, burner, now, done + {id})
  {
    PaidOver(b.accounts, c.accounts, c'.accounts, escrow, burner, b.deposits, {}, done, id);
    SurplusChain(b.accounts, b.deposits, c.accounts, c.deposits, c'.accounts, c'.deposits, escrow);
  }

  lemma AllDropped(b: Books, c: Books, escrow: Addr, burner: Addr, now: Time, done: set<ID>)
    requires Expired(b, c, escrow, burner, now, done) && NoneDue(c.proposals, false, now)
    ensures done == DueIDs(b.proposals, false, now)
  {
    var was := b.proposals;
    forall id | id in was && id !in done ensures id !in DueIDs(was, false, now) {
      assert id in was - done;
    }
  }

  function Closed(p: Proposal, passes: bool): Proposal {
    p.(status := if passes then Passed else Rejected)
  }

  // The proposals after some have passed and some were rejected.
  ghost function CloseAll(ps: Proposals, passed: set<ID>, rejected: set<ID>): Proposals {
    map id | id in ps :: if id in passed then Closed(ps[id], true) else if id in rejected then Closed(ps[id], false) else ps[id]
  }

  lemma CloseOne(ps: Proposals, passed: set<ID>, rejected: set<ID>, id: ID)
    requires id in ps && id !in passed && id !in rejected
    ensures CloseAll(ps, passed + {id}, rejected) == CloseAll(ps, passed, rejected)[id := Closed(ps[id], true)]
    ensures CloseAll(ps, passed, rejected + {id}) == CloseAll(ps, passed, rejected)[id := Closed(ps[id], false)]
  {}

  ghost predicate AllCast(votes: Votes) {
    forall id :: id in votes ==> Cast(votes[id])
  }

  // Those whose votes carry them.
  ghost function Passing(ids: set<ID>, votes: Votes, stake: Stake): set<ID> {
    set id | id in ids && Carries(VotesOf(votes, id), stake)
  }

  // The proposals dealt with so far, by outcome.
  ghost predicate Sorts(was: Proposals, votes: Votes, stake: Stake, now: Time,
                        passed: set<ID>, rejected: set<ID>) {
    passed + rejected <= DueIDs(was, true, now) && passed == Passing(passed + rejected, votes, stake) && passed !! rejected
  }

  // The second loop has dealt with these.
  ghost predicate Tallied(b: Books, c: Books, escrow: Addr, burner: Addr, stake: Stake, now: Time,
                          passed: set<ID>, rejected: set<ID>) {
    Sorts(b.proposals, b.votes, stake, now, passed, rejected) && c.proposals == CloseAll(b.proposals, passed, rejected) &&
    c.deposits == b.deposits - (passed + rejected) && c.votes == b.votes - (passed + rejected) &&
    Paid(b.accounts, c.accounts, escrow, burner, b.deposits, passed, rejected) &&
    SameSurplus(b.accounts, b.deposits, c.accounts, c.deposits, escrow)
  }

  lemma NoneTallied(b: Books, escrow: Addr, burner: Addr, stake: Stake, now: Time)
    ensures Tallied(b, b, escrow, burner, stake, now, {}, {})
  {
    NonePaid(b.accounts, escrow, burner, b.deposits);
    assert b.deposits - {} == b.deposits && b.votes - {} == b.votes && CloseAll(b.proposals, {}, {}) == b.proposals;
  }

  ghost predicate OneTallied(c: Books, c': Books, escrow: Addr, stake: Stake, now: Time, id: ID, passes: bool) {
    id in c.proposals && Due(c.proposals[id], true, now) && id in c.deposits &&
    passes == Carries(VotesOf(c.votes, id), stake) && c'.proposals == c.proposals[id := Closed(c.proposals[id], passes)] &&
    c'.deposits == c.deposits - {id} && c'.votes == c.votes - {id} &&
    SameSurplus(c.accounts, c.deposits, c'.accounts, c'.deposits, escrow)
  }

  lemma NotYet(b: Books, c: Books, escrow: Addr, burner: Addr, stake: Stake, now: Time, passed: set<ID>, rejected: set<ID>, id: ID)
    requires Tallied(b, c, escrow, burner, stake, now, passed, rejected) && id in c.proposals && Due(c.proposals[id], true, now)
    ensures id !in passed && id !in rejected && id in b.proposals && c.proposals[id] == b.proposals[id]
    ensures VotesOf(c.votes, id) == VotesOf(b.votes, id) && (id in c.deposits ==> c.deposits[id] == b.deposits[id])
  {}

  lemma PassOne(b: Books, c: Books, c': Books, escrow: Addr, burner: Addr, stake: Stake, now: Time,
                passed: set<ID>, rejected: set<ID>, id: ID)
    requires Tallied(b, c, escrow, burner, stake, now, passed, rejected) && OneTallied(c, c', escrow, stake, now, id, true)
    requires Refunded(c.accounts, c'.accounts, escrow, c.deposits[id])
    ensures Tallied(b, c', escrow, burner, stake, now, passed + {id}, rejected)
  {
    NotYet(b, c, escrow, burner, stake, now, passed, rejected, id);
    CloseOne(b.proposals, passed, rejected, id);
    PaidBack(b.accounts, c.accounts, c'.accounts, escrow, burner, b.deposits, passed, rejected, id);
    SurplusChain(b.accounts, b.deposits, c.accounts, c.deposits, c'.accounts, c'.deposits, escrow);
  }

  lemma RejectOne(b: Books, c: Books, c': Books, escrow: Addr, burner: Addr, stake: Stake, now: Time,
                  passed: set<ID>, rejected: set<ID>, id: ID)
    requires Tallied(b, c, escrow, burner, stake, now, passed, rejected) && OneTallied(c, c', escrow, stake, now, id, false)
    requires Burned(c.accounts, c'.accounts, escrow, burner, c.deposits[id])
    ensures Tallied(b, c', escrow, burner, stake, now, passed, rejected + {id})
  {
    NotYet(b, c, escrow, burner, stake, now, passed, rejected, id);
    CloseOne(b.proposals, passed, rejected, id);
    PaidOver(b.accounts, c.accounts, c'.accounts, escrow, burner, b.deposits, passed, rejected, id);
    SurplusChain(b.accounts, b.deposits, c.accounts, c.deposits, c'.accounts, c'.deposits, escrow);
  }

  lemma AllTallied(b: Books, c: Books, escrow: Addr, burner: Addr, stake: Stake, now: Time, passed: set<ID>, rejected: set<ID>)
    requires Tallied(b, c, escrow, burner, stake, now, passed, rejected) && NoneDue(c.proposals, true, now)
    ensures var due := DueIDs(b.proposals, true, now);
            passed == Passing(due, b.votes, stake) && rejected == due - passed
  {
    var was := b.proposals;
    forall id | id in was && id !in passed + rejected ensures id !in DueIDs(was, true, now) {
      assert CloseAll(was, passed, rejected)[id] == was[id];
    }
    assert passed + rejected == DueIDs(was, true, now);
  }

  // A proposal due in either queue is dropped, or closed by its tally, its records going back to the
  // depositors or to the burn address; every other proposal, record and vote is untouched.
  ghost predicate Ended(b: Books, c: Books, escrow: Addr, burner: Addr, stake: Stake, now: Time) {
    var expired, voted := DueIDs(b.proposals, false, now), DueIDs(b.proposals, true, now);
    var passing := Passing(voted, b.votes, stake);
    c.proposals == CloseAll(b.proposals - expired, passing, voted - passing) &&
    c.deposits == b.deposits - expired - voted && c.votes == b.votes - voted &&
    Paid(b.accounts, c.accounts, escrow, burner, b.deposits, passing, expired + (voted - passing)) &&
    SameSurplus(b.accounts, b.deposits, c.accounts, c.deposits, escrow)
  }

  lemma EndedBoth(b: Books, m: Books, c: Books, escrow: Addr, burner: Addr, stake: Stake, now: Time)
    requires Expired(b, m, escrow, burner, now, DueIDs(b.proposals, false, now)) && NoneDue(m.proposals, false, now)
    requires var due := DueIDs(m.proposals, true, now);
             var passing := Passing(due, m.votes, stake);
             Tallied(m, c, escrow, burner, stake, now, passing, due - passing)
    ensures Ended(b, c, escrow, burner, stake, now) && NoneDue(c.proposals, false, now)
  {
    var expired, voted := DueIDs(b.proposals, false, now), DueIDs(b.proposals, true, now);
    var passing := Passing(voted, b.votes, stake);
    DueLater(b.proposals, now);
    assert passing + (voted - passing) == voted;
    SurplusChain(b.accounts, b.deposits, m.accounts, m.deposits, c.accounts, c.deposits, escrow);
    PaidChain(b.accounts, m.accounts, c.accounts, escrow, burner, b.deposits, expired, passing, voted - passing);
    NotDueAgain(m.proposals, passing, voted - passing, now);
  }

  // What becomes of one proposal: gone if its deposit period has ended, passed or rejected by its votes if its
  // voting period has, otherwise as it was.
  lemma EndOfProposal(b: Books, c: Books, escrow: Addr, burner: Addr, stake: Stake, now: Time, id: ID)
    requires Ended(b, c, escrow, burner, stake, now) && id in b.proposals
    ensures var p := b.proposals[id];
            var stored := if id in b.votes then b.votes[id] else map[];
            if p.status.DepositPeriod? && !Earlier(now, p.depositEnd) then id !in c.proposals
            else if p.status.VotingPeriod? && !Earlier(now, p.votingEnd) then
              id in c.proposals && id !in c.votes &&
              c.proposals[id] == p.(status := if Carries(stored, stake) then Passed else Rejected)
            else id in c.proposals && c.proposals[id] == p
  {}

  // Dropping what has expired leaves what is due for its tally.
  lemma DueLater(ps: Proposals, now: Time)
    ensures var expired, voted := DueIDs(ps, false, now), DueIDs(ps, true, now);
            DueIDs(ps - expired, true, now) == voted && voted !! expired
  {}

  lemma NotDueAgain(ps: Proposals, passed: set<ID>, rejected: set<ID>, now: Time)
    requires NoneDue(ps, false, now)
    ensures NoneDue(CloseAll(ps, passed, rejected), false, now)
  {
    forall id | id in ps ensures !Due(CloseAll(ps, passed, rejected)[id], false, now) {
      assert !Due(ps[id], false, now);
    }
  }

  // A proposal is queued under one key only.
  lemma OneKey(ps: Proposals, queue: Queue, id: ID)
    requires Queued(ps, queue) && id in ps && ps[id].status.DepositPeriod?
    ensures Key(true, ps[id].votingEnd, id) !in queue
    ensures var q := queue - {KeyOf(ps[id], id)}; q - {Key(true, ps[id].votingEnd, id)} == q
  {}

  // One more record moves from those left to those done.
  ghost function PaidOne(was: Deposits, ds: Deposits, id: ID, done: Records, a: Addr): (r: Records)
    requires id in was && id in ds && ds == was[id := ds[id]] && done.Keys !! ds[id].Keys && done + ds[id] == was[id] && a in ds[id]
    ensures r == done[a := ds[id][a]]
    ensures var ds' := ds[id := ds[id] - {a}];
            ds' == was[id := ds'[id]] && r.Keys !! ds'[id].Keys && r + ds'[id] == was[id]
  {
    assert done[a := ds[id][a]] + (ds[id] - {a}) == done + ds[id];
    done[a := ds[id][a]]
  }

  function VotesOf(votes: Votes, id: ID): map<Addr, VoteOption> {
    if id in votes then votes[id] else map[]
  }

  // A proposal after a deposit: voting starts when the total reaches the minimum.
  function Raised(p: Proposal, amt: Coins, minDeposit: Coins, votingEnd: Time): Proposal {
    var q := p.(total := Add(p.total, amt));
    if q.status.DepositPeriod? && IsAllGTE(q.total, minDeposit) then q.(status := VotingPeriod, votingEnd := votingEnd) else q
  }

  // A new proposal with its first deposit.
  function Opened(amt: Coins, minDeposit: Coins, depositEnd: Time, votingEnd: Time): Proposal {
    Raised(Proposal(DepositPeriod, [], depositEnd, ZEROTIME), amt, minDeposit, votingEnd)
  }

  // Voting starts with the first deposit that brings the total to the minimum in every denomination.
  lemma RaisedMeans(p: Proposal, amt: Coins, minDeposit: Coins, votingEnd: Time)
    requires Sorted(p.total) && Sorted(amt) && Sorted(minDeposit)
    ensures var q := Raised(p, amt, minDeposit, votingEnd);
            var starts := p.status.DepositPeriod? && forall d :: Total(p.total, d) + Total(amt, d) >= Total(minDeposit, d);
            (forall d :: Total(q.total, d) == Total(p.total, d) + Total(amt, d)) && q.depositEnd == p.depositEnd &&
            q.status == (if starts then VotingPeriod else p.status) && q.votingEnd == if starts then votingEnd else p.votingEnd
  {
    var total := Add(p.total, amt);
    AddShape(p.total, amt);
    IsAllGTEPointwise(total, minDeposit);
    forall d ensures Total(total, d) == Total(p.total, d) + Total(amt, d) { AddTotal(p.total, amt, d); }
  }

  lemma Opening(accounts: Accounts, escrow: Addr)
    requires AllSound(accounts)
    ensures Money(accounts, escrow, map[])
  {
    forall d ensures Surplus(accounts, escrow, map[], d) >= 0 {
      CanonicalTotals(CoinsOf(accounts, escrow), d);
      assert HeldBy(map[], d) == map[];
    }
  }

  // The first deposit of a depositor is stored as it is.
  lemma FirstDeposit(spending: Spending, accounts: Accounts, escrow: Addr, r: Records, from: Addr, amt: Coins)
    requires AllSound(accounts) && Sending(spending, accounts, from, escrow, amt).Done?
    ensures Add(Record(r, from), amt) == if from in r then Add(r[from], amt) else amt
  {
    SendingSound(spending, accounts, from, escrow, amt);
    NonZeroSame(amt);
  }
}
