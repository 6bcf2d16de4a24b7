// x/distribution/keeper/allocation.go and x/distribution/abci_app.go: sharing out the fees of a block.
// Fees come as whole coins; shares are decimal coins, truncated at every multiplication.

module Allocation {
  import opened Bytes
  import opened Coins
  import opened Decimal
  import opened MapSum

  type Addr = Bytes

  datatype Validator = Validator(operator: Addr, rate: Dec)

  datatype Vote = Vote(address: Addr, power: int, signed: bool)

  datatype Params = Params(base: Dec, bonus: Dec, tax: Dec)

  type Records = map<Addr, Coins>

  // The community pool and the validators' records.
  datatype Pools = Pools(community: Coins, commission: Records, rewards: Records, outstanding: Records)

  function Of(m: Records, op: Addr): Coins {
    if op in m then m[op] else []
  }

  // ---------- The code on values; None is a panic ----------

  function InDec(cs: Coins): Coins { MapCoins(cs, a => NewDec(a)) }

  // NewDecCoinFromCoin panics on a negative amount and on upper case.
  function NewDecCoins(cs: Coins): Option<Coins> {
    if AnyNegative(cs) || !LowerDenoms(cs) then None else Some(InDec(cs))
  }

  function MulDec(cs: Coins, m: Dec): Coins { MapCoins(cs, a => Mul(a, m)) }

  function MulDecTruncate(cs: Coins, m: Dec): Coins { MapCoins(cs, a => MulTruncate(a, m)) }

  function MinEach(a: Coins, b: Coins): Coins {
    if a == [] then []
    else
      var other := AmountOf(b, a[0].denom);
      [Coin(a[0].denom, if a[0].amount < other then a[0].amount else other)] + MinEach(a[1..], b)
  }

  // AmountOf panics on a malformed denomination, of a zero entry too.
  function Intersect(a: Coins, b: Coins): Option<Coins> {
    if ValidDenoms(a) then Some(NonZero(MinEach(a, b))) else None
  }

  function PowerFraction(power: int, total: int): Dec
    requires total > 0
  {
    QuoTruncate(NewDec(power), NewDec(total))
  }

  // AllocateTokensToValidator
  function Pay(p: Pools, val: Validator, tokens: Coins): Option<Pools> {
    var commission := MulDec(tokens, val.rate);
    var shared := Sub(tokens, commission);
    if AnyNegative(shared) then None
    else
      var op := val.operator;
      Some(p.(commission := p.commission[op := Add(Of(p.commission, op), commission)],
              rewards := p.rewards[op := Add(Of(p.rewards, op), shared)],
              outstanding := p.outstanding[op := Add(Of(p.outstanding, op), tokens)]))
  }

  // One round of the loop over votes: pay a voter's share and take it off what remains.
  function PayVote(vals: map<Addr, Validator>, p: Pools, remaining: Coins, part: Coins, total: int, v: Vote): Option<(Pools, Coins)>
    requires total > 0
  {
    if v.address !in vals then None
    else
      var reward := Intersect(MulDecTruncate(part, PowerFraction(v.power, total)), remaining);
      if reward.None? then None
      else
        var paid := Pay(p, vals[v.address], reward.value);
        if paid.None? || AnyNegative(Sub(remaining, reward.value)) then None
        else Some((paid.value, Sub(remaining, reward.value)))
  }

  function PayVotes(vals: map<Addr, Validator>, p: Pools, remaining: Coins, part: Coins, total: int, votes: seq<Vote>)
    : Option<(Pools, Coins)>
    requires total > 0
  {
    if votes == [] then Some((p, remaining))
    else
      var r := PayVotes(vals, p, remaining, part, total, votes[..|votes| - 1]);
      if r.None? then None
      else PayVote(vals, r.value.0, r.value.1, part, total, votes[|votes| - 1])
  }

  function ProposerMultiplier(params: Params, sumPrecommit: int, total: int): Dec
    requires total > 0
  {
    params.base + MulTruncate(params.bonus, Quo(NewDec(sumPrecommit), NewDec(total)))
  }

  // The proposer's share; an unknown proposer gets nothing.
  function PayProposer(vals: map<Addr, Validator>, p: Pools, fees: Coins, reward: Coins, proposer: Addr): Option<(Pools, Coins)> {
    if proposer !in vals then Some((p, fees))
    else
      var paid := Pay(p, vals[proposer], reward);
      if paid.None? || AnyNegative(Sub(fees, reward)) then None
      else Some((paid.value, Sub(fees, reward)))
  }

  // AllocateTokens once some power has voted: `reward` is the proposer's share of the fees and
  // `part` what the voters divide among them.
  function Allocate(vals: map<Addr, Validator>, p: Pools, fees: Coins, reward: Coins, part: Coins,
                          total: int, proposer: Addr, votes: seq<Vote>): Option<Pools>
    requires total > 0
  {
    var r := PayProposer(vals, p, fees, reward, proposer);
    if r.None? then None
    else
      var r' := PayVotes(vals, r.value.0, r.value.1, part, total, votes);
      if r'.None? then None
      else Some(r'.value.0.(community := Add(r'.value.0.community, r'.value.1)))
  }

  // ---------- Arithmetic of one denomination ----------

  function SumPower(votes: seq<Vote>): int {
    if votes == [] then 0 else SumPower(votes[..|votes| - 1]) + votes[|votes| - 1].power
  }

  function VoteShares(a: Dec, total: int, votes: seq<Vote>): int
    requires total > 0
  {
    if votes == [] then 0
    else VoteShares(a, total, votes[..|votes| - 1]) + MulTruncate(a, PowerFraction(votes[|votes| - 1].power, total))
  }

  predicate PowersOk(votes: seq<Vote>) {
    forall i :: 0 <= i < |votes| ==> votes[i].power >= 0
  }

  lemma FractionBound(power: int, total: int)
    requires power >= 0 && total > 0
    ensures 0 <= PowerFraction(power, total) && PowerFraction(power, total) * total <= power * UNIT
    ensures power * UNIT < (PowerFraction(power, total) + 1) * total
  {
    QuoTruncateIsExact(NewDec(power), NewDec(total));
    var n := power * UNIT;
    assert NewDec(power) * UNIT == n * UNIT && NewDec(total) == total * UNIT;
    DivCancel(n, total, UNIT);
    DivBounds(n, total);
    DivMonotone(0, n, total);
  }

  lemma ShareBound(a: Dec, power: int, total: int)
    requires a >= 0 && power >= 0 && total > 0
    ensures var r := MulTruncate(a, PowerFraction(power, total)); r >= 0 && r * total <= a * power
  {
    var f := PowerFraction(power, total);
    FractionBound(power, total);
    MulTruncateBounds(a, f);
    var r := MulTruncate(a, f);
    MulOrder(r * UNIT, a * f, total);
    MulOrder(f * total, power * UNIT, a);
    Scale(r, a, f, power, total);
  }

  lemma Scale(r: int, a: int, f: int, power: int, total: int)
    requires (r * UNIT) * total <= (a * f) * total && (f * total) * a <= (power * UNIT) * a
    ensures r * total <= a * power
  {
    assert (r * UNIT) * total == UNIT * (r * total);
    assert (a * f) * total == (f * total) * a;
    assert (power * UNIT) * a == UNIT * (a * power);
  }

  // A share is what the power earns, less one unit in the last place for the share itself and one for each whole
  // of the amount.
  lemma ShareNear(a: Dec, power: int, total: int)
    requires a >= 0 && power >= 0 && total > 0
    ensures var r := MulTruncate(a, PowerFraction(power, total));
            r * total <= a * power && a * power * UNIT < (r + 1) * total * UNIT + a * total
  {
    var f := PowerFraction(power, total);
    var r := MulTruncate(a, f);
    ShareBound(a, power, total);
    FractionBound(power, total);
    MulTruncateBounds(a, f);
    MulOrder(power * UNIT, (f + 1) * total, a);
    MulLess(a * f, (r + 1) * UNIT, total);
    Spread(a, f, power, total, r);
  }

  lemma Spread(a: int, f: int, power: int, total: int, r: int)
    requires (power * UNIT) * a <= ((f + 1) * total) * a && (a * f) * total < ((r + 1) * UNIT) * total
    ensures a * power * UNIT < (r + 1) * total * UNIT + a * total
  {
    assert ((f + 1) * total) * a == (a * f) * total + a * total by {
      Distribute(f, 1, total);
      Distribute(f * total, total, a);
      Rotate(a, f, total);
    }
    Rotate(a, power, UNIT);
    Rotate(UNIT, r + 1, total);
  }

  lemma {:induction false} SharesBound(a: Dec, total: int, votes: seq<Vote>)
    requires a >= 0 && total > 0 && PowersOk(votes)
    ensures VoteShares(a, total, votes) >= 0 && SumPower(votes) >= 0
    ensures VoteShares(a, total, votes) * total <= a * SumPower(votes)
  {
    if votes != [] {
      var init, v := votes[..|votes| - 1], votes[|votes| - 1];
      SharesBound(a, total, init);
      ShareBound(a, v.power, total);
      var r := MulTruncate(a, PowerFraction(v.power, total));
      SharesStep(VoteShares(a, total, init), SumPower(init), r, v.power, a, total);
    }
  }

  lemma SharesStep(s: int, p: int, r: int, power: int, a: int, total: int)
    requires s * total <= a * p && r * total <= a * power
    ensures (s + r) * total <= a * (p + power)
  {
    Distribute(s, r, total);
    Distribute(p, power, a);
  }

  // Together the voters get no more than the part set aside for them.
  lemma SharesWithin(a: Dec, total: int, votes: seq<Vote>)
    requires a >= 0 && total > 0 && PowersOk(votes) && SumPower(votes) <= total
    ensures 0 <= VoteShares(a, total, votes) <= a
  {
    SharesBound(a, total, votes);
    MulOrder(SumPower(votes), total, a);
    var s := VoteShares(a, total, votes);
    assert SumPower(votes) * a == a * SumPower(votes) && total * a == a * total;
    assert (a + 1) * total == a * total + total;
    if s > a { MulOrder(a + 1, s, total); }
  }

  lemma MultiplierBounds(params: Params, sumPrecommit: int, total: int)
    requires params.base >= 0 && params.bonus >= 0 && 0 <= sumPrecommit <= total && total > 0
    ensures params.base <= ProposerMultiplier(params, sumPrecommit, total) <= params.base + params.bonus
  {
    var f := Quo(NewDec(sumPrecommit), NewDec(total));
    QuoMonotone(sumPrecommit, sumPrecommit, total);
    QuoAtMostOne(sumPrecommit, total);
    MulTruncateBounds(params.bonus, f);
    MulOrder(f, UNIT, params.bonus);
    assert f * params.bonus == params.bonus * f;
  }

  // The bonus is paid in proportion to the power that signed, to a unit in the last place and a little more than
  // half a unit per whole of the bonus.
  lemma MultiplierNear(params: Params, signed: int, total: int)
    requires params.bonus >= 0 && 0 <= signed && total > 0
    ensures var g := ProposerMultiplier(params, signed, total) - params.base;
            2 * UNIT * UNIT * (g * total - params.bonus * signed) <= (UNIT + 2) * total * params.bonus &&
            2 * UNIT * UNIT * (params.bonus * signed - (g + 1) * total) <= (UNIT + 2) * total * params.bonus
  {
    var f := Quo(NewDec(signed), NewDec(total));
    var g := MulTruncate(params.bonus, f);
    QuoMonotone(signed, signed, total);
    MulTruncateBounds(params.bonus, f);
    QuoOfInts(signed, total);
    ScaledGap(f * total, signed, params.bonus, (UNIT + 2) * total);
    MulOrder(g * UNIT, params.bonus * f, total);
    MulOrder(params.bonus * f, (g + 1) * UNIT, total);
    BonusGap(params.bonus, f, g, signed, total);
  }

  lemma BonusGap(bonus: int, f: int, g: int, signed: int, total: int)
    requires Abs(2 * UNIT * ((f * total) * bonus - UNIT * (signed * bonus))) <= (UNIT + 2) * total * bonus
    requires (g * UNIT) * total <= (bonus * f) * total <= ((g + 1) * UNIT) * total
    ensures 2 * UNIT * UNIT * (g * total - bonus * signed) <= (UNIT + 2) * total * bonus
    ensures 2 * UNIT * UNIT * (bonus * signed - (g + 1) * total) <= (UNIT + 2) * total * bonus
  {
    Rotate(bonus, f, total);
    Rotate(UNIT, g, total);
    Rotate(UNIT, g + 1, total);
    assert signed * bonus == bonus * signed;
  }

  // What proposer and voters may take of an amount f leaves at least the tax.
  lemma PartsWithin(f: Dec, multiplier: Dec, tax: Dec)
    requires f >= 0 && multiplier >= 0 && tax >= 0 && multiplier + tax <= UNIT
    ensures var p := MulTruncate(f, multiplier); var a := MulTruncate(f, UNIT - multiplier - tax);
            0 <= p && 0 <= a && (f - p - a) * UNIT >= tax * f && p + a <= f
  {
    var vm := UNIT - multiplier - tax;
    MulTruncateBounds(f, multiplier);
    MulTruncateBounds(f, vm);
    assert f * multiplier + f * vm == f * UNIT - tax * f by {
      assert f * vm == f * (UNIT - multiplier - tax) == f * UNIT - f * multiplier - f * tax;
    }
    MulOrder(0, tax, f);
  }

  // ---------- Lists ----------

  // Strictly sorted with no negative amount; zeros may appear.
  ghost predicate Fine(cs: Coins) {
    Sorted(cs) && forall d :: Total(cs, d) >= 0
  }

  lemma TruncatedTotals(cs: Coins, m: Dec)
    requires Fine(cs) && m >= 0
    ensures Fine(MulDecTruncate(cs, m))
    ensures forall d :: Total(MulDecTruncate(cs, m), d) == MulTruncate(Total(cs, d), m)
  {
    var f := a => MulTruncate(a, m);
    MapCoinsTotal(cs, f, []);
    forall d ensures Total(MulDecTruncate(cs, m), d) == MulTruncate(Total(cs, d), m) >= 0 {
      MapCoinsTotal(cs, f, d);
      MulTruncateBounds(Total(cs, d), m);
    }
  }

  lemma DecTotals(cs: Coins)
    requires Canonical(cs)
    ensures Fine(InDec(cs)) && forall d :: Total(InDec(cs), d) == UNIT * Total(cs, d)
  {
    var f := a => NewDec(a);
    MapCoinsTotal(cs, f, []);
    forall d ensures Total(InDec(cs), d) == UNIT * Total(cs, d) >= 0 {
      MapCoinsTotal(cs, f, d);
      CanonicalTotals(cs, d);
    }
  }

  lemma MulAtMost(t: Dec, rate: Dec)
    requires t >= 0 && 0 <= rate <= UNIT
    ensures 0 <= Mul(t, rate) <= t
  {
    MulMonotone(0, rate, t);
    MulMonotone(rate, UNIT, t);
    ChopRoundWhole(t * UNIT, t);
    ChopRoundWhole(0, 0);
  }

  lemma CommissionTotals(tokens: Coins, rate: Dec)
    requires Fine(tokens) && 0 <= rate <= UNIT
    ensures Fine(MulDec(tokens, rate)) && !AnyNegative(Sub(tokens, MulDec(tokens, rate)))
    ensures forall d :: Total(MulDec(tokens, rate), d) == Mul(Total(tokens, d), rate)
  {
    var f := a => Mul(a, rate);
    var commission := MulDec(tokens, rate);
    MapCoinsTotal(tokens, f, []);
    forall d ensures Total(commission, d) == Mul(Total(tokens, d), rate) && 0 <= Total(commission, d) <= Total(tokens, d) {
      MapCoinsTotal(tokens, f, d);
      MulAtMost(Total(tokens, d), rate);
    }
    SafeSubFlag(tokens, commission);
  }

  lemma {:induction false} MinEachSame(a: Coins, b: Coins)
    requires forall i :: 0 <= i < |a| ==> a[i].amount <= AmountOf(b, a[i].denom)
    ensures MinEach(a, b) == a
  {
    if a != [] { MinEachSame(a[1..], b); }
  }

  // Intersecting with a list that holds at least as much of everything clips nothing, and panics
  // exactly on a malformed denomination.
  lemma IntersectClipsNothing(a: Coins, b: Coins)
    requires Sorted(a) && Sorted(b) && forall d :: Total(a, d) <= Total(b, d)
    ensures Intersect(a, b) == if ValidDenoms(a) then Some(NonZero(a)) else None
    ensures forall d :: Total(NonZero(a), d) == Total(a, d)
    ensures Sorted(NonZero(a)) && ZeroFree(NonZero(a))
  {
    forall i | 0 <= i < |a| ensures a[i].amount <= AmountOf(b, a[i].denom) {
      TotalAt(a, i);
      AmountOfIsTotal(b, a[i].denom);
    }
    MinEachSame(a, b);
    NonZeroShape(a, []);
    forall d ensures Total(NonZero(a), d) == Total(a, d) {
      TotalNonZero(a, d);
    }
  }

  lemma TakenTotals(remaining: Coins, reward: Coins)
    requires Fine(remaining) && Sorted(reward) && forall d :: Total(reward, d) <= Total(remaining, d)
    ensures Fine(Sub(remaining, reward)) && !AnyNegative(Sub(remaining, reward))
    ensures forall d :: Total(Sub(remaining, reward), d) == Total(remaining, d) - Total(reward, d)
  {
    SubShape(remaining, reward);
    SafeSubFlag(remaining, reward);
    forall d ensures Total(Sub(remaining, reward), d) == Total(remaining, d) - Total(reward, d) {
      SubTotal(remaining, reward, d);
    }
  }

  // ---------- Records ----------

  ghost function Amounts(m: Records, d: Bytes): map<Addr, int> {
    map k | k in m :: Total(m[k], d)
  }

  ghost function SumAt(m: Records, d: Bytes): int {
    Sum(Amounts(m, d))
  }

  lemma SumAtAdd(m: Records, op: Addr, cs: Coins, d: Bytes)
    ensures SumAt(m[op := Add(Of(m, op), cs)], d) == SumAt(m, d) + Total(cs, d)
  {
    var m' := m[op := Add(Of(m, op), cs)];
    AddTotal(Of(m, op), cs, d);
    assert Amounts(m', d) == Amounts(m, d)[op := Total(m'[op], d)];
    SumSet(Amounts(m, d), op, Total(m'[op], d));
  }

  // What a validator holds as commission and rewards beyond what is outstanding to it.
  ghost function Surplus(p: Pools, op: Addr, d: Bytes): int {
    Total(Of(p.commission, op), d) + Total(Of(p.rewards, op), d) - Total(Of(p.outstanding, op), d)
  }

  // ---------- Payments ----------

  // An amount of one denomination paid to a validator.
  datatype Payment = Payment(val: Validator, amount: Dec)

  function SumPaid(ps: seq<Payment>): int {
    if ps == [] then 0 else SumPaid(ps[..|ps| - 1]) + ps[|ps| - 1].amount
  }

  // What an operator receives, and the commission it keeps of that at the rate of each payment.
  function Received(ps: seq<Payment>, op: Addr): int {
    if ps == [] then 0
    else
      var x := ps[|ps| - 1];
      Received(ps[..|ps| - 1], op) + if x.val.operator == op then x.amount else 0
  }

  function Charged(ps: seq<Payment>, op: Addr): int {
    if ps == [] then 0
    else
      var x := ps[|ps| - 1];
      Charged(ps[..|ps| - 1], op) + if x.val.operator == op then Mul(x.amount, x.val.rate) else 0
  }

  lemma PaymentSnoc(ps: seq<Payment>, x: Payment, op: Addr)
    ensures SumPaid(ps + [x]) == SumPaid(ps) + x.amount
    ensures Received(ps + [x], op) == Received(ps, op) + if x.val.operator == op then x.amount else 0
    ensures Charged(ps + [x], op) == Charged(ps, op) + if x.val.operator == op then Mul(x.amount, x.val.rate) else 0
  {
    assert (ps + [x])[..|ps|] == ps;
  }

  lemma {:induction false} PaymentsConcat(ps: seq<Payment>, qs: seq<Payment>, op: Addr)
    ensures SumPaid(ps + qs) == SumPaid(ps) + SumPaid(qs)
    ensures Received(ps + qs, op) == Received(ps, op) + Received(qs, op)
    ensures Charged(ps + qs, op) == Charged(ps, op) + Charged(qs, op)
  {
    if qs == [] {
      assert ps + qs == ps;
    } else {
      var rest, x := qs[..|qs| - 1], qs[|qs| - 1];
      PaymentsConcat(ps, rest, op);
      assert ps + qs == (ps + rest) + [x];
      PaymentSnoc(ps + rest, x, op);
    }
  }

  // Every record of an operator grows by its payments: what is outstanding by all it receives, its commission
  // by its cut, its delegators' rewards by the rest.
  ghost predicate Booked(p: Pools, q: Pools, op: Addr, d: Bytes, ps: seq<Payment>) {
    Total(Of(q.outstanding, op), d) == Total(Of(p.outstanding, op), d) + Received(ps, op) &&
    Total(Of(q.commission, op), d) == Total(Of(p.commission, op), d) + Charged(ps, op) &&
    Total(Of(q.rewards, op), d) == Total(Of(p.rewards, op), d) + Received(ps, op) - Charged(ps, op)
  }

  ghost predicate Given(p: Pools, q: Pools, d: Bytes, ps: seq<Payment>) {
    q.community == p.community && SumAt(q.outstanding, d) == SumAt(p.outstanding, d) + SumPaid(ps) &&
    forall op :: Booked(p, q, op, d, ps)
  }

  lemma PayGives(p: Pools, val: Validator, tokens: Coins, d: Bytes)
    requires Fine(tokens) && 0 <= val.rate <= UNIT
    ensures Pay(p, val, tokens).Some? && Given(p, Pay(p, val, tokens).value, d, [Payment(val, Total(tokens, d))])
  {
    CommissionTotals(tokens, val.rate);
    var q, ps := Pay(p, val, tokens).value, [Payment(val, Total(tokens, d))];
    SumAtAdd(p.outstanding, val.operator, tokens, d);
    OnePayment(ps[0], val.operator);
    forall op ensures Booked(p, q, op, d, ps) {
      PayBooks(p, val, tokens, q, op, d);
    }
  }

  // The operator's commission grows by its rate of what it is paid and its delegators' rewards by the rest; no
  // other operator's records change.
  lemma PaySplits(p: Pools, val: Validator, tokens: Coins, q: Pools, op: Addr, d: Bytes)
    requires Fine(tokens) && 0 <= val.rate <= UNIT && Pay(p, val, tokens) == Some(q)
    ensures var mine := op == val.operator; var n := Total(tokens, d); var cut := Mul(n, val.rate);
            Total(Of(q.commission, op), d) == Total(Of(p.commission, op), d) + (if mine then cut else 0) &&
            Total(Of(q.rewards, op), d) == Total(Of(p.rewards, op), d) + (if mine then n - cut else 0) &&
            Total(Of(q.outstanding, op), d) == Total(Of(p.outstanding, op), d) + if mine then n else 0
  {
    var commission := MulDec(tokens, val.rate);
    CommissionTotals(tokens, val.rate);
    AddedAt(p.outstanding, val.operator, tokens, op, d);
    AddedAt(p.commission, val.operator, commission, op, d);
    AddedAt(p.rewards, val.operator, Sub(tokens, commission), op, d);
    SubTotal(tokens, commission, d);
  }

  lemma PayBooks(p: Pools, val: Validator, tokens: Coins, q: Pools, op: Addr, d: Bytes)
    requires Fine(tokens) && 0 <= val.rate <= UNIT && Pay(p, val, tokens) == Some(q)
    ensures Booked(p, q, op, d, [Payment(val, Total(tokens, d))])
  {
    PaySplits(p, val, tokens, q, op, d);
    OnePayment(Payment(val, Total(tokens, d)), op);
  }

  lemma AddedAt(m: Records, own: Addr, cs: Coins, op: Addr, d: Bytes)
    ensures Total(Of(m[own := Add(Of(m, own), cs)], op), d) == Total(Of(m, op), d) + if op == own then Total(cs, d) else 0
  {
    AddTotal(Of(m, own), cs, d);
  }

  lemma OnePayment(x: Payment, op: Addr)
    ensures SumPaid([x]) == x.amount && Received([x], op) == (if x.val.operator == op then x.amount else 0)
    ensures Charged([x], op) == if x.val.operator == op then Mul(x.amount, x.val.rate) else 0
  {
    PaymentSnoc([], x, op);
    assert [] + [x] == [x];
  }

  lemma GivenTrans(p: Pools, q: Pools, r: Pools, d: Bytes, ps: seq<Payment>, qs: seq<Payment>)
    requires Given(p, q, d, ps) && Given(q, r, d, qs)
    ensures Given(p, r, d, ps + qs)
  {
    PaymentsConcat(ps, qs, []);
    forall op ensures Booked(p, r, op, d, ps + qs) {
      PaymentsConcat(ps, qs, op);
      assert Booked(p, q, op, d, ps) && Booked(q, r, op, d, qs);
    }
  }

  lemma NothingGiven(p: Pools, d: Bytes)
    ensures Given(p, p, d, [])
  {}

  // ---------- The loop over votes ----------

  predicate Known(vals: map<Addr, Validator>, votes: seq<Vote>) {
    forall i :: 0 <= i < |votes| ==> votes[i].address in vals
  }

  predicate RatesOk(vals: map<Addr, Validator>) {
    forall a :: a in vals ==> 0 <= vals[a].rate <= UNIT
  }

  function VotePayment(vals: map<Addr, Validator>, a: Dec, total: int, v: Vote): Payment
    requires total > 0 && v.address in vals
  {
    Payment(vals[v.address], MulTruncate(a, PowerFraction(v.power, total)))
  }

  // Each vote pays its validator a share by power.
  function VotePayments(vals: map<Addr, Validator>, a: Dec, total: int, votes: seq<Vote>): (ps: seq<Payment>)
    requires total > 0 && Known(vals, votes)
  {
    if votes == [] then []
    else VotePayments(vals, a, total, votes[..|votes| - 1]) + [VotePayment(vals, a, total, votes[|votes| - 1])]
  }

  lemma {:induction false} VotePaymentsSum(vals: map<Addr, Validator>, a: Dec, total: int, votes: seq<Vote>)
    requires total > 0 && Known(vals, votes)
    ensures SumPaid(VotePayments(vals, a, total, votes)) == VoteShares(a, total, votes)
  {
    if votes != [] {
      var init, v := votes[..|votes| - 1], votes[|votes| - 1];
      VotePaymentsSum(vals, a, total, init);
      PaymentSnoc(VotePayments(vals, a, total, init), VotePayment(vals, a, total, v), []);
    }
  }

  lemma PayVoteGives(vals: map<Addr, Validator>, p: Pools, remaining: Coins, part: Coins, total: int, v: Vote)
    requires total > 0 && v.power >= 0 && v.address in vals && RatesOk(vals) && Fine(remaining) && Fine(part) && ValidDenoms(part)
    requires forall d :: MulTruncate(Total(part, d), PowerFraction(v.power, total)) <= Total(remaining, d)
    ensures var r := PayVote(vals, p, remaining, part, total, v);
            r.Some? && Fine(r.value.1) &&
            forall d :: Given(p, r.value.0, d, [VotePayment(vals, Total(part, d), total, v)]) &&
                        Total(r.value.1, d) == Total(remaining, d) - MulTruncate(Total(part, d), PowerFraction(v.power, total))
  {
    var f := PowerFraction(v.power, total);
    FractionBound(v.power, total);
    var share := MulDecTruncate(part, f);
    TruncatedTotals(part, f);
    IntersectClipsNothing(share, remaining);
    MapCoinsDenoms(part, a => MulTruncate(a, f));
    var reward := NonZero(share);
    TakenTotals(remaining, reward);
    PayGives(p, vals[v.address], reward, []);
    forall d ensures Given(p, Pay(p, vals[v.address], reward).value, d, [VotePayment(vals, Total(part, d), total, v)]) {
      PayGives(p, vals[v.address], reward, d);
    }
  }

  lemma {:induction false} PayVotesGives(vals: map<Addr, Validator>, p: Pools, remaining: Coins, part: Coins, total: int,
                                               votes: seq<Vote>)
    requires total > 0 && PowersOk(votes) && SumPower(votes) <= total && Known(vals, votes) && RatesOk(vals)
    requires Fine(remaining) && Fine(part) && ValidDenoms(part) && forall d :: Total(part, d) <= Total(remaining, d)
    ensures var r := PayVotes(vals, p, remaining, part, total, votes);
            r.Some? && Fine(r.value.1) &&
            forall d :: Given(p, r.value.0, d, VotePayments(vals, Total(part, d), total, votes)) &&
                        Total(r.value.1, d) == Total(remaining, d) - VoteShares(Total(part, d), total, votes)
  {
    if votes != [] {
      var init, v := votes[..|votes| - 1], votes[|votes| - 1];
      PayVotesGives(vals, p, remaining, part, total, init);
      var m := PayVotes(vals, p, remaining, part, total, init).value;
      forall d ensures MulTruncate(Total(part, d), PowerFraction(v.power, total)) <= Total(m.1, d) {
        SharesWithin(Total(part, d), total, votes);
        assert Total(part, d) <= Total(remaining, d);
      }
      PayVoteGives(vals, m.0, m.1, part, total, v);
      var q := PayVote(vals, m.0, m.1, part, total, v).value;
      forall d ensures Given(p, q.0, d, VotePayments(vals, Total(part, d), total, votes)) {
        GivenTrans(p, m.0, q.0, d, VotePayments(vals, Total(part, d), total, init), [VotePayment(vals, Total(part, d), total, v)]);
      }
    } else {
      forall d ensures Given(p, p, d, []) { NothingGiven(p, d); }
    }
  }

  // A malformed denomination panics at the first vote, whatever its power.
  lemma MalformedPanics(vals: map<Addr, Validator>, p: Pools, remaining: Coins, part: Coins, total: int, votes: seq<Vote>)
    requires total > 0 && !ValidDenoms(part) && votes != []
    ensures PayVotes(vals, p, remaining, part, total, votes).None?
  {
    var f := PowerFraction(votes[0].power, total);
    MapCoinsDenoms(part, a => MulTruncate(a, f));
    assert votes[..1][..0] == [] && votes[..1][0] == votes[0];
    StopsEarly(vals, p, remaining, part, total, votes, 1);
  }

  // ---------- The whole allocation ----------

  predicate ParamsOk(params: Params) {
    params.base >= 0 && params.bonus >= 0 && params.tax >= 0 && params.base + params.bonus + params.tax <= UNIT
  }

  // Every fee unit ends up in the community pool or outstanding to a validator, each validator's
  // commission and rewards grow by what becomes outstanding to it, and the community gets its tax.
  ghost predicate Conserves(params: Params, p: Pools, q: Pools, d: Bytes, fee: Dec) {
    Total(q.community, d) + SumAt(q.outstanding, d) == Total(p.community, d) + SumAt(p.outstanding, d) + fee &&
    (forall op :: Surplus(q, op, d) == Surplus(p, op, d)) &&
    (Total(q.community, d) - Total(p.community, d)) * UNIT >= params.tax * fee
  }

  lemma PayProposerGives(vals: map<Addr, Validator>, p: Pools, fees: Coins, reward: Coins, proposer: Addr)
    requires RatesOk(vals) && Fine(fees) && Fine(reward) && forall d :: Total(reward, d) <= Total(fees, d)
    ensures var r := PayProposer(vals, p, fees, reward, proposer);
            r.Some? && Fine(r.value.1) &&
            forall d :: Given(p, r.value.0, d, ProposerPayment(vals, Total(reward, d), proposer)) &&
                        Total(r.value.1, d) == Total(fees, d) - if proposer in vals then Total(reward, d) else 0
  {
    if proposer in vals {
      TakenTotals(fees, reward);
      PayGives(p, vals[proposer], reward, []);
      forall d ensures Given(p, Pay(p, vals[proposer], reward).value, d, ProposerPayment(vals, Total(reward, d), proposer)) {
        PayGives(p, vals[proposer], reward, d);
      }
    } else {
      forall d ensures Given(p, p, d, []) { NothingGiven(p, d); }
    }
  }

  function ProposerPayment(vals: map<Addr, Validator>, reward: Dec, proposer: Addr): seq<Payment> {
    if proposer in vals then [Payment(vals[proposer], reward)] else []
  }

  // The payments were booked and the community pool has what they leave of the fee.
  ghost predicate PaidOut(p: Pools, q: Pools, d: Bytes, fee: Dec, ps: seq<Payment>) {
    (forall op :: Booked(p, q, op, d, ps)) && Total(q.community, d) == Total(p.community, d) + fee - SumPaid(ps)
  }

  lemma CommunityTotals(p: Pools, q: Pools, remaining: Coins, params: Params, d: Bytes, ps: seq<Payment>, fee: Dec)
    requires Given(p, q, d, ps) && Total(remaining, d) == fee - SumPaid(ps) && (fee - SumPaid(ps)) * UNIT >= params.tax * fee
    ensures var r := q.(community := Add(q.community, remaining)); Conserves(params, p, r, d, fee) && PaidOut(p, r, d, fee, ps)
  {
    AddTotal(q.community, remaining, d);
    var r := q.(community := Add(q.community, remaining));
    forall op ensures Surplus(r, op, d) == Surplus(p, op, d) && Booked(p, r, op, d, ps) {
      assert Booked(p, q, op, d, ps);
    }
  }

  lemma OneDenomination(params: Params, p: Pools, q: Pools, r: Pools, remaining: Coins, d: Bytes, fee: Dec,
                        multiplier: Dec, ps: seq<Payment>, qs: seq<Payment>)
    requires Given(p, q, d, ps) && Given(q, r, d, qs) && Total(remaining, d) == fee - SumPaid(ps) - SumPaid(qs)
    requires fee >= 0 && multiplier >= 0 && params.tax >= 0 && multiplier + params.tax <= UNIT
    requires SumPaid(ps) == 0 || SumPaid(ps) == MulTruncate(fee, multiplier)
    requires SumPaid(qs) <= MulTruncate(fee, UNIT - multiplier - params.tax)
    ensures var q := r.(community := Add(r.community, remaining)); Conserves(params, p, q, d, fee) && PaidOut(p, q, d, fee, ps + qs)
  {
    PartsWithin(fee, multiplier, params.tax);
    GivenTrans(p, q, r, d, ps, qs);
    PaymentsConcat(ps, qs, []);
    CommunityTotals(p, r, remaining, params, d, ps + qs, fee);
  }

  // What a fee of one denomination pays out: the proposer's share, then each vote's share of the rest.
  function Payments(vals: map<Addr, Validator>, params: Params, m: Dec, fee: Dec, total: int, proposer: Addr, votes: seq<Vote>)
    : seq<Payment>
    requires total > 0 && Known(vals, votes)
  {
    ProposerPayment(vals, MulTruncate(fee, m), proposer) +
    VotePayments(vals, MulTruncate(fee, UNIT - m - params.tax), total, votes)
  }

  // The allocation panics exactly on a malformed denomination and otherwise conserves, whatever the
  // split between proposer and voters.
  lemma AllocateConserves(vals: map<Addr, Validator>, params: Params, p: Pools, fees: Coins, m: Dec, reward: Coins, part: Coins,
                       total: int, proposer: Addr, votes: seq<Vote>)
    requires RatesOk(vals) && ParamsOk(params) && PowersOk(votes) && Known(vals, votes)
    requires total > 0 && total == SumPower(votes) && m >= 0 && m + params.tax <= UNIT
    requires Shares(fees, m, params.tax, reward, part)
    ensures var r := Allocate(vals, p, fees, reward, part, total, proposer, votes);
            (r.Some? <==> ValidDenoms(part)) &&
            (r.Some? ==> forall d :: Conserves(params, p, r.value, d, Total(fees, d)) &&
                                     PaidOut(p, r.value, d, Total(fees, d),
                                             Payments(vals, params, m, Total(fees, d), total, proposer, votes)))
  {
    if ValidDenoms(part) {
      ValidConserves(vals, params, p, fees, m, reward, part, total, proposer, votes);
    } else {
      var r := PayProposer(vals, p, fees, reward, proposer);
      if r.Some? { MalformedPanics(vals, r.value.0, r.value.1, part, total, votes); }
    }
  }

  lemma BothParts(vals: map<Addr, Validator>, params: Params, p: Pools, q: Pools, r: Pools, remaining: Coins, d: Bytes, fee: Dec,
                  m: Dec, reward: Dec, part: Dec, total: int, proposer: Addr, votes: seq<Vote>)
    requires ParamsOk(params) && PowersOk(votes) && Known(vals, votes) && total > 0 && total == SumPower(votes)
    requires fee >= 0 && part >= 0 && m >= 0 && m + params.tax <= UNIT
    requires reward == MulTruncate(fee, m) && part == MulTruncate(fee, UNIT - m - params.tax)
    requires Given(p, q, d, ProposerPayment(vals, reward, proposer)) && Given(q, r, d, VotePayments(vals, part, total, votes))
    requires Total(remaining, d) == fee - (if proposer in vals then reward else 0) - VoteShares(part, total, votes)
    ensures var r' := r.(community := Add(r.community, remaining));
            Conserves(params, p, r', d, fee) && PaidOut(p, r', d, fee, Payments(vals, params, m, fee, total, proposer, votes))
  {
    SharesWithin(part, total, votes);
    VotePaymentsSum(vals, part, total, votes);
    if proposer in vals { OnePayment(Payment(vals[proposer], reward), []); }
    OneDenomination(params, p, q, r, remaining, d, fee, m, ProposerPayment(vals, reward, proposer),
                    VotePayments(vals, part, total, votes));
  }

  lemma ValidConserves(vals: map<Addr, Validator>, params: Params, p: Pools, fees: Coins, m: Dec, reward: Coins, part: Coins,
                       total: int, proposer: Addr, votes: seq<Vote>)
    requires RatesOk(vals) && ParamsOk(params) && PowersOk(votes) && Known(vals, votes) && ValidDenoms(part)
    requires total > 0 && total == SumPower(votes) && m >= 0 && m + params.tax <= UNIT
    requires Shares(fees, m, params.tax, reward, part)
    ensures var r := Allocate(vals, p, fees, reward, part, total, proposer, votes);
            r.Some? && forall d :: Conserves(params, p, r.value, d, Total(fees, d)) &&
                                   PaidOut(p, r.value, d, Total(fees, d),
                                           Payments(vals, params, m, Total(fees, d), total, proposer, votes))
  {
    forall d ensures Total(reward, d) <= Total(fees, d) && Total(reward, d) + Total(part, d) <= Total(fees, d) {
      PartsWithin(Total(fees, d), m, params.tax);
    }
    PayProposerGives(vals, p, fees, reward, proposer);
    var r := PayProposer(vals, p, fees, reward, proposer).value;
    PayVotesGives(vals, r.0, r.1, part, total, votes);
    var r' := PayVotes(vals, r.0, r.1, part, total, votes).value;
    var q := r'.0.(community := Add(r'.0.community, r'.1));
    forall d ensures Conserves(params, p, q, d, Total(fees, d)) &&
                     PaidOut(p, q, d, Total(fees, d), Payments(vals, params, m, Total(fees, d), total, proposer, votes)) {
      BothParts(vals, params, p, r.0, r'.0, r'.1, d, Total(fees, d), m, Total(reward, d), Total(part, d), total, proposer, votes);
    }
  }

  // The shares a multiplier gives rise to.
  ghost predicate Shares(fees: Coins, m: Dec, tax: Dec, reward: Coins, part: Coins) {
    Fine(fees) && Fine(reward) && Fine(part) &&
    (forall d :: Total(reward, d) == MulTruncate(Total(fees, d), m)) &&
    (forall d :: Total(part, d) == MulTruncate(Total(fees, d), UNIT - m - tax))
  }

  lemma SharesOf(feesInt: Coins, m: Dec, tax: Dec)
    requires Canonical(feesInt) && 0 <= m && 0 <= tax && m + tax <= UNIT
    ensures var fees := InDec(feesInt);
            var part := MulDecTruncate(fees, UNIT - m - tax);
            Shares(fees, m, tax, MulDecTruncate(fees, m), part) && (ValidDenoms(part) <==> ValidDenoms(feesInt)) &&
            forall d :: Total(fees, d) == UNIT * Total(feesInt, d)
  {
    DecTotals(feesInt);
    TruncatedTotals(InDec(feesInt), m);
    TruncatedTotals(InDec(feesInt), UNIT - m - tax);
    PartDenoms(feesInt, UNIT - m - tax);
  }

  lemma PartDenoms(feesInt: Coins, m: Dec)
    ensures ValidDenoms(MulDecTruncate(InDec(feesInt), m)) <==> ValidDenoms(feesInt)
  {
    MapCoinsDenoms(feesInt, a => NewDec(a));
    MapCoinsDenoms(InDec(feesInt), a => MulTruncate(a, m));
  }

  // Fees {1aaa, 1b} are valid coins and convert, yet no block with a vote can share them out.
  lemma AllocationCanPanic(vals: map<Addr, Validator>, p: Pools, reward: Coins, m: Dec, total: int, proposer: Addr,
                           votes: seq<Vote>)
    requires total > 0 && votes != []
    ensures var fees := [Coin([97, 97, 97], 1), Coin([98], 1)];
            IsValid(fees) && NewDecCoins(fees).Some? &&
            Allocate(vals, p, InDec(fees), reward, MulDecTruncate(InDec(fees), m), total, proposer, votes).None?
  {
    var fees := [Coin([97, 97, 97], 1), Coin([98], 1)];
    assert IsValid(fees) by { assert fees[1..] == [Coin([98], 1)]; }
    assert !ValidDenom(fees[1].denom);
    PartDenoms(fees, m);
    var r := PayProposer(vals, p, InDec(fees), reward, proposer);
    if r.Some? { MalformedPanics(vals, r.value.0, r.value.1, MulDecTruncate(InDec(fees), m), total, votes); }
  }

  // Without any voting power everything goes to the community; only upper case panics.
  lemma NoPowerConserves(params: Params, p: Pools, feesInt: Coins)
    requires Canonical(feesInt) && ParamsOk(params)
    ensures var fees := NewDecCoins(feesInt);
            (fees.Some? <==> LowerDenoms(feesInt)) &&
            (fees.Some? ==>
             var q := p.(community := Add(p.community, fees.value));
             forall d :: Conserves(params, p, q, d, UNIT * Total(feesInt, d)) && PaidOut(p, q, d, UNIT * Total(feesInt, d), []))
  {
    var fees := InDec(feesInt);
    DecTotals(feesInt);
    var q := p.(community := Add(p.community, fees));
    forall d ensures Conserves(params, p, q, d, UNIT * Total(feesInt, d)) && PaidOut(p, q, d, UNIT * Total(feesInt, d), []) {
      MulOrder(params.tax, UNIT, Total(fees, d));
      NothingGiven(p, d);
      CommunityTotals(p, p, fees, params, d, [], Total(fees, d));
    }
  }

  // What a block's fee of one denomination pays out, by the power that was there and the power that signed.
  function BlockPayments(vals: map<Addr, Validator>, params: Params, signed: int, total: int, fee: Dec, proposer: Addr,
                         votes: seq<Vote>): seq<Payment>
    requires total >= 0 && Known(vals, votes)
  {
    if total == 0 then [] else Payments(vals, params, ProposerMultiplier(params, signed, total), fee, total, proposer, votes)
  }

  function SignedPower(votes: seq<Vote>): int {
    if votes == [] then 0
    else SignedPower(votes[..|votes| - 1]) + if votes[|votes| - 1].signed then votes[|votes| - 1].power else 0
  }

  // With voting power every denomination must be well formed; without any, only upper case is refused.
  predicate Unshareable(fees: Coins, totalPower: int) {
    if totalPower == 0 then !LowerDenoms(fees) else !ValidDenoms(fees)
  }

  // ---------- The keeper ----------

  class Distribution {
    const params: Params
    const vals: map<Addr, Validator>
    var fees: Coins
    var pools: Pools

    // outstanding.Add(tokens) compacts the array of `tokens`, which the caller still holds.
    method AllocateTokensToValidator(val: Validator, tokens: array<Coin>) returns (panicked: bool)
      modifies this`pools, tokens
      ensures panicked == Pay(old(pools), val, old(tokens[..])).None?
      ensures pools == if panicked then old(pools) else Pay(old(pools), val, old(tokens[..])).value
      ensures tokens[..] == if panicked then old(tokens[..])
                            else Edited(old(tokens[..]), Of(old(pools.outstanding), val.operator))
    {
      var commission := MulDec(tokens[..], val.rate);
      var shared := Sub(tokens[..], commission);
      if AnyNegative(shared) {
        return true;
      }
      panicked := false;
      var op := val.operator;
      var currentCommission := SafeAdd(Of(pools.commission, op), commission);
      var currentRewards := SafeAdd(Of(pools.rewards, op), shared);
      var current := Of(pools.outstanding, op);
      var held := new Coin[|current|](i requires 0 <= i < |current| => current[i]);
      assert held[..] == current;
      var outstanding := SafeAddInPlace(held, tokens);
      pools := pools.(commission := pools.commission[op := currentCommission],
                      rewards := pools.rewards[op := currentRewards],
                      outstanding := pools.outstanding[op := outstanding]);
    }

    // Although paying the proposer may rearrange its reward, taking that reward off is unharmed:
    // the reward has no zero entry, or nothing but zero entries.
    method AllocateToProposer(proposer: Addr, feesCollected: Coins, reward: Coins) returns (panicked: bool, remaining: Coins)
      requires ZeroFree(reward) || AllZero(reward)
      modifies this`pools
      ensures var r := PayProposer(vals, old(pools), feesCollected, reward, proposer);
              panicked == r.None? && (r.Some? ==> (pools, remaining) == r.value)
    {
      remaining := feesCollected;
      if proposer !in vals {
        return false, remaining;
      }
      var tokens := new Coin[|reward|](i requires 0 <= i < |reward| => reward[i]);
      assert tokens[..] == reward;
      panicked := AllocateTokensToValidator(vals[proposer], tokens);
      if panicked {
        return;
      }
      EditedFrom(reward, Of(old(pools.outstanding), vals[proposer].operator));
      TakenAlike(remaining, reward, tokens[..]);
      var diff := Sub(remaining, tokens[..]);
      if AnyNegative(diff) {
        return true, remaining;
      }
      return false, diff;
    }

    method AllocateTokens(sumPrecommitPower: int, totalPower: int, proposer: Addr, votes: seq<Vote>) returns (panicked: bool)
      requires Canonical(fees) && RatesOk(vals) && ParamsOk(params) && PowersOk(votes) && Known(vals, votes)
      requires totalPower == SumPower(votes) && 0 <= sumPrecommitPower <= totalPower
      modifies this`fees, this`pools
      ensures panicked <==> Unshareable(old(fees), totalPower)
      ensures !panicked ==> fees == [] && forall d :: Conserves(params, old(pools), pools, d, UNIT * Total(old(fees), d))
      ensures !panicked ==>
        forall d :: var fee := UNIT * Total(old(fees), d);
                    PaidOut(old(pools), pools, d, fee,
                            BlockPayments(vals, params, sumPrecommitPower, totalPower, fee, proposer, votes))
    {
      var converted := NewDecCoins(fees);
      if ValidDenoms(fees) { ValidIsLower(fees); }
      if converted.None? {
        return true;
      }
      var feesCollected := converted.value;
      if totalPower == 0 {
        NoPowerConserves(params, pools, fees);
        var community := SafeAdd(pools.community, feesCollected);
        fees, pools := [], pools.(community := community);
        return false;
      }
      MultiplierBounds(params, sumPrecommitPower, totalPower);
      var multiplier := ProposerMultiplier(params, sumPrecommitPower, totalPower);
      SharesOf(fees, multiplier, params.tax);
      RewardAmounts(fees, multiplier);
      panicked := AllocateShares(feesCollected, multiplier, MulDecTruncate(feesCollected, multiplier),
                                 MulDecTruncate(feesCollected, UNIT - multiplier - params.tax), totalPower, proposer, votes);
    }

    method AllocateShares(feesCollected: Coins, ghost multiplier: Dec, reward: Coins, part: Coins, totalPower: int, proposer: Addr,
                          votes: seq<Vote>) returns (panicked: bool)
      requires RatesOk(vals) && ParamsOk(params) && PowersOk(votes) && Known(vals, votes)
      requires multiplier >= 0 && multiplier + params.tax <= UNIT && totalPower > 0 && totalPower == SumPower(votes)
      requires Shares(feesCollected, multiplier, params.tax, reward, part) && (ZeroFree(reward) || AllZero(reward))
      modifies this`fees, this`pools
      ensures panicked <==> !ValidDenoms(part)
      ensures !panicked ==> fees == [] && forall d :: Conserves(params, old(pools), pools, d, Total(feesCollected, d))
      ensures !panicked ==>
        forall d :: PaidOut(old(pools), pools, d, Total(feesCollected, d),
                            Payments(vals, params, multiplier, Total(feesCollected, d), totalPower, proposer, votes))
    {
      AllocateConserves(vals, params, pools, feesCollected, multiplier, reward, part, totalPower, proposer, votes);
      fees := [];
      panicked := AllocateAll(feesCollected, reward, part, totalPower, proposer, votes);
    }

    method AllocateAll(feesCollected: Coins, reward: Coins, part: Coins, totalPower: int, proposer: Addr, votes: seq<Vote>)
      returns (panicked: bool)
      requires totalPower > 0 && (ZeroFree(reward) || AllZero(reward))
      modifies this`pools
      ensures var r := Allocate(vals, old(pools), feesCollected, reward, part, totalPower, proposer, votes);
              panicked == r.None? && (r.Some? ==> pools == r.value)
    {
      var remaining;
      panicked, remaining := AllocateToProposer(proposer, feesCollected, reward);
      if panicked {
        return;
      }
      panicked, remaining := AllocateToVoters(remaining, part, totalPower, votes);
      if panicked {
        return;
      }
      var community := SafeAdd(pools.community, remaining);
      pools := pools.(community := community);
    }

    method AllocateToVoters(left: Coins, part: Coins, totalPower: int, votes: seq<Vote>) returns (panicked: bool, remaining: Coins)
      requires totalPower > 0
      modifies this`pools
      ensures var r := PayVotes(vals, old(pools), left, part, totalPower, votes);
              panicked == r.None? && (r.Some? ==> (pools, remaining) == r.value)
    {
      panicked, remaining := false, left;
      ghost var p := pools;
      for i := 0 to |votes|
        invariant !panicked && PayVotes(vals, p, left, part, totalPower, votes[..i]) == Some((pools, remaining))
      {
        var v := votes[i];
        assert votes[..i + 1][..i] == votes[..i] && votes[..i + 1][i] == v;
        panicked, remaining := AllocateToVoter(remaining, part, totalPower, v);
        if panicked {
          StopsEarly(vals, p, left, part, totalPower, votes, i + 1);
          return;
        }
      }
      assert votes[..|votes|] == votes;
    }

    // The reward is a fresh, zero-free slice, so nothing it shares is disturbed.
    method AllocateToVoter(left: Coins, part: Coins, totalPower: int, v: Vote) returns (panicked: bool, remaining: Coins)
      requires totalPower > 0
      modifies this`pools
      ensures var r := PayVote(vals, old(pools), left, part, totalPower, v);
              panicked == r.None? && (r.Some? ==> (pools, remaining) == r.value)
    {
      remaining := left;
      if v.address !in vals {
        return true, left;
      }
      var share := MulDecTruncate(part, PowerFraction(v.power, totalPower));
      var intersection := Intersect(share, left);
      if intersection.None? {
        return true, left;
      }
      NonZeroIsZeroFree(MinEach(share, left));
      panicked, remaining := AllocateReward(left, intersection.value, vals[v.address]);
    }

    method AllocateReward(left: Coins, reward: Coins, val: Validator) returns (panicked: bool, remaining: Coins)
      requires ZeroFree(reward)
      modifies this`pools
      ensures var paid := Pay(old(pools), val, reward);
              panicked == (paid.None? || AnyNegative(Sub(left, reward))) &&
              (!panicked ==> pools == paid.value && remaining == Sub(left, reward))
    {
      remaining := left;
      var tokens := new Coin[|reward|](i requires 0 <= i < |reward| => reward[i]);
      assert tokens[..] == reward;
      panicked := AllocateTokensToValidator(val, tokens);
      if panicked {
        return;
      }
      EditedFrom(reward, Of(old(pools.outstanding), val.operator));
      var diff := Sub(left, tokens[..]);
      if AnyNegative(diff) {
        return true, left;
      }
      return false, diff;
    }

    // distribution.BeginBlocker: the power that was there and the power that signed.
    method BeginBlocker(height: int, previousProposer: Addr, votes: seq<Vote>) returns (panicked: bool)
      requires Canonical(fees) && RatesOk(vals) && ParamsOk(params) && PowersOk(votes) && Known(vals, votes)
      modifies this`fees, this`pools
      ensures panicked <==> height > 1 && Unshareable(old(fees), SumPower(votes))
      ensures if height <= 1 then pools == old(pools) && fees == old(fees)
              else !panicked ==> fees == [] && forall d :: Conserves(params, old(pools), pools, d, UNIT * Total(old(fees), d))
      ensures SumPower(votes) >= 0
      ensures height > 1 && !panicked ==>
        forall d :: var fee := UNIT * Total(old(fees), d);
                    PaidOut(old(pools), pools, d, fee,
                            BlockPayments(vals, params, SignedPower(votes), SumPower(votes), fee, previousProposer, votes))
    {
      var totalPower, sumPrecommitPower := 0, 0;
      for i := 0 to |votes|
        invariant totalPower == SumPower(votes[..i]) && sumPrecommitPower == SignedPower(votes[..i])
        invariant 0 <= sumPrecommitPower <= totalPower
      {
        assert votes[..i + 1][..i] == votes[..i];
        totalPower := totalPower + votes[i].power;
        if votes[i].signed {
          sumPrecommitPower := sumPrecommitPower + votes[i].power;
        }
      }
      assert votes[..|votes|] == votes;
      panicked := false;
      if height > 1 {
        panicked := AllocateTokens(sumPrecommitPower, totalPower, previousProposer, votes);
      }
    }
  }

  lemma {:induction false} StopsEarly(vals: map<Addr, Validator>, p: Pools, remaining: Coins, part: Coins, total: int,
                                            votes: seq<Vote>, n: nat)
    requires total > 0 && n <= |votes| && PayVotes(vals, p, remaining, part, total, votes[..n]).None?
    ensures PayVotes(vals, p, remaining, part, total, votes).None?
  {
    if n < |votes| {
      assert votes[..|votes| - 1][..n] == votes[..n];
      StopsEarly(vals, p, remaining, part, total, votes[..|votes| - 1], n);
    } else {
      assert votes[..n] == votes;
    }
  }

  lemma {:induction false} NonZeroIsZeroFree(cs: Coins)
    ensures ZeroFree(NonZero(cs))
  {
    if cs != [] { NonZeroIsZeroFree(cs[1..]); }
  }

  predicate AllZero(cs: Coins) {
    forall i :: 0 <= i < |cs| ==> cs[i].amount == 0
  }

  lemma TakenAlike(remaining: Coins, reward: Coins, left: Coins)
    requires ZeroFree(reward) || AllZero(reward)
    requires ZeroFree(reward) ==> left == reward
    requires forall c :: c in left ==> c in reward
    ensures Sub(remaining, left) == Sub(remaining, reward)
  {
    if AllZero(reward) {
      forall i | 0 <= i < |left| ensures left[i].amount == 0 {
        assert left[i] in left;
      }
      SubZeros(remaining, left);
      SubZeros(remaining, reward);
    }
  }

  // Whole coins times a positive multiplier never truncate to nothing.
  lemma {:induction false} RewardAmounts(fees: Coins, multiplier: Dec)
    requires AllPositive(fees) && multiplier >= 0
    ensures var reward := MulDecTruncate(InDec(fees), multiplier);
            if multiplier == 0 then AllZero(reward) else ZeroFree(reward)
  {
    if fees != [] {
      RewardAmounts(fees[1..], multiplier);
      var f := NewDec(fees[0].amount);
      assert InDec(fees)[1..] == InDec(fees[1..]);
      MulTruncateBounds(f, multiplier);
      MulOrder(1, fees[0].amount, multiplier);
      assert f * multiplier == UNIT * (fees[0].amount * multiplier);
    }
  }
}
