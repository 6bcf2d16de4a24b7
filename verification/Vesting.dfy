// x/auth/account.go: vesting accounts. Coins unlock over time; what is still locked may be delegated
// but never spent.

module Vesting {
  import opened Bytes
  import opened Coins
  import opened Decimal

  // Times are Unix seconds. A delayed account unlocks everything at `end`.
  datatype Schedule = Continuous(start: int, end: int) | Delayed(end: int)

  function Min(a: int, b: int): int { if a > b then b else a }

  function Max(a: int, b: int): int { if a < b then b else a }

  // ---------- The unlocking curve ----------

  // x seconds into a period of y seconds: the scalar, the product and the integer are each rounded.
  function VestedAmount(amount: int, x: int, y: int): int
    requires 0 < y
  {
    RoundInt(Mul(NewDec(amount), Quo(NewDec(x), NewDec(y))))
  }

  function VestedAt(s: Schedule, amount: int, t: int): int {
    if s.Continuous? && t <= s.start then 0
    else if t >= s.end then amount
    else if s.Delayed? then 0
    else VestedAmount(amount, t - s.start, s.end - s.start)
  }

  // Entries may be zero.
  function VestedEach(s: Schedule, ov: Coins, t: int): Coins {
    if s.Continuous? && t <= s.start then []
    else if t >= s.end then ov
    else if s.Delayed? then []
    else MapCoins(ov, amount => VestedAt(s, amount, t))
  }

  predicate Underway(s: Schedule, t: int) {
    s.Continuous? && s.start < t < s.end
  }

  // GetVestedCoins; half-way NewCoin panics on a malformed denomination and on a negative amount.
  function VestedCoins(s: Schedule, ov: Coins, t: int): Option<Coins> {
    var vested := VestedEach(s, ov, t);
    if Underway(s, t) && (!ValidDenoms(vested) || AnyNegative(vested)) then None else Some(vested)
  }

  // GetVestingCoins, with Sub's panic
  function VestingCoins(s: Schedule, ov: Coins, t: int): Option<Coins> {
    var vested := VestedCoins(s, ov, t);
    if vested.None? then None
    else
      var diff := Sub(ov, vested.value);
      if AnyNegative(diff) then None else Some(diff)
  }

  lemma VestedAmountBounds(amount: int, x: int, y: int)
    requires 0 <= amount && 0 <= x <= y && 0 < y
    ensures 0 <= VestedAmount(amount, x, y) <= amount
  {
    var s := Quo(NewDec(x), NewDec(y));
    QuoMonotone(x, x, y);
    QuoAtMostOne(x, y);
    MulMonotone(0, s, NewDec(amount));
    MulMonotone(s, UNIT, NewDec(amount));
    ChopRoundWhole(NewDec(amount) * UNIT, NewDec(amount));
    ChopRoundWhole(0, 0);
    ChopRoundWhole(Mul(NewDec(amount), s), amount);
    ChopRoundWhole(Mul(NewDec(amount), s), 0);
  }

  lemma VestedAmountMonotone(amount: int, x: int, x': int, y: int)
    requires 0 <= amount && 0 <= x <= x' && 0 < y
    ensures VestedAmount(amount, x, y) <= VestedAmount(amount, x', y)
  {
    QuoMonotone(x, x', y);
    MulMonotone(Quo(NewDec(x), NewDec(y)), Quo(NewDec(x'), NewDec(y)), NewDec(amount));
    ChopRoundMonotone(Mul(NewDec(amount), Quo(NewDec(x), NewDec(y))), Mul(NewDec(amount), Quo(NewDec(x'), NewDec(y))));
  }

  // A delayed account vests all at the end. A continuous one vests the linear share, up to half a coin and,
  // for each coin of the original, little more than half a unit in the last decimal place.
  lemma VestedIsLinear(s: Schedule, amount: nat, t: int)
    ensures s.Delayed? ==> VestedAt(s, amount, t) == if t < s.end then 0 else amount
    ensures s.Continuous? && t <= s.start ==> VestedAt(s, amount, t) == 0
    ensures s.Continuous? && s.start < t && s.end <= t ==> VestedAt(s, amount, t) == amount
    ensures Underway(s, t) ==>
              var y := s.end - s.start;
              Abs(2 * UNIT * UNIT * (VestedAt(s, amount, t) * y - amount * (t - s.start))) <=
              UNIT * UNIT * y + (UNIT + 2) * y * amount
  {
    if Underway(s, t) { VestedNear(amount, t - s.start, s.end - s.start); }
  }

  lemma VestedNear(amount: nat, x: int, y: int)
    requires 0 < y
    ensures Abs(2 * UNIT * UNIT * (VestedAmount(amount, x, y) * y - amount * x)) <= UNIT * UNIT * y + (UNIT + 2) * y * amount
  {
    var q := Quo(NewDec(x), NewDec(y));
    QuoOfInts(x, y);
    RoundedProduct(amount, q);
    NearOf(amount, x, y, q, amount * q, VestedAmount(amount, x, y));
  }

  // Only the last of the three roundings loses anything once the quotient is taken.
  lemma RoundedProduct(amount: nat, q: Dec)
    ensures 2 * Abs(amount * q - RoundInt(Mul(NewDec(amount), q)) * UNIT) <= UNIT
  {
    var w := amount * q;
    assert NewDec(amount) * q == w * UNIT by { Regroup(UNIT, amount, q); }
    ChopRoundWhole(w * UNIT, w);
    ChopRoundIsNearestEven(w, RoundInt(w));
  }

  lemma NearOf(amount: nat, x: int, y: int, q: int, w: int, r: int)
    requires 0 < y && w == amount * q && 2 * Abs(w - r * UNIT) <= UNIT
    requires Abs(2 * UNIT * (q * y - x * UNIT)) <= (UNIT + 2) * y
    ensures Abs(2 * UNIT * UNIT * (r * y - amount * x)) <= UNIT * UNIT * y + (UNIT + 2) * y * amount
  {
    ScaledGap(w, r, y, UNIT);
    ScaledGap(q * y, x, amount, (UNIT + 2) * y);
    Rotate(amount, q, y);
    Combine(w * y, r * y, x * amount, UNIT * y, (UNIT + 2) * y * amount);
  }

  lemma Combine(wy: int, ry: int, nx: int, e: int, f: int)
    requires 2 * Abs(wy - UNIT * ry) <= e && Abs(2 * UNIT * (wy - UNIT * nx)) <= f
    ensures Abs(2 * UNIT * UNIT * (ry - nx)) <= UNIT * e + f
  {}

  // Through all three roundings what has vested stays between nothing and everything and never shrinks.
  lemma VestedCurve(s: Schedule, amount: int, t: int, t': int)
    requires 0 <= amount && t <= t'
    ensures 0 <= VestedAt(s, amount, t) <= VestedAt(s, amount, t') <= amount
  {
    if s.Continuous? {
      var y := s.end - s.start;
      if s.start < t < s.end { VestedAmountBounds(amount, t - s.start, y); }
      if s.start < t' < s.end { VestedAmountBounds(amount, t' - s.start, y); }
      if s.start < t && t' < s.end { VestedAmountMonotone(amount, t - s.start, t' - s.start, y); }
    }
  }

  // What is still locked of an original amount.
  function Locked(s: Schedule, amount: int, t: int): int {
    amount - VestedAt(s, amount, t)
  }

  lemma VestedTotal(s: Schedule, ov: Coins, t: int, d: Bytes)
    requires Canonical(ov)
    ensures Sorted(VestedEach(s, ov, t))
    ensures Total(VestedEach(s, ov, t), d) == VestedAt(s, Total(ov, d), t)
  {
    var f := amount => VestedAt(s, amount, t);
    VestedCurve(s, 0, t, t);
    MapCoinsTotal(ov, f, d);
    if VestedEach(s, ov, t) == [] { TotalElsewhere([], d); }
  }

  lemma LockedTotal(s: Schedule, ov: Coins, t: int)
    requires Canonical(ov)
    ensures Canonical(Sub(ov, VestedEach(s, ov, t)))
    ensures forall d :: Total(Sub(ov, VestedEach(s, ov, t)), d) == Locked(s, Total(ov, d), t)
  {
    var diff := Sub(ov, VestedEach(s, ov, t));
    VestedTotal(s, ov, t, []);
    SubShape(ov, VestedEach(s, ov, t));
    forall d ensures Total(diff, d) == Locked(s, Total(ov, d), t) >= 0 {
      VestedTotal(s, ov, t, d);
      SubTotal(ov, VestedEach(s, ov, t), d);
      CanonicalTotals(ov, d);
      VestedCurve(s, Total(ov, d), t, t);
    }
    PositiveTotals(diff);
  }

  lemma VestedNotNegative(s: Schedule, ov: Coins, t: int)
    requires Canonical(ov) && Underway(s, t)
    ensures !AnyNegative(VestedEach(s, ov, t)) && (ValidDenoms(VestedEach(s, ov, t)) <==> ValidDenoms(ov))
  {
    MapCoinsDenoms(ov, amount => VestedAt(s, amount, t));
    forall i | 0 <= i < |ov| ensures VestedEach(s, ov, t)[i].amount >= 0 {
      VestedCurve(s, ov[i].amount, t, t);
    }
  }

  // GetVestingCoins holds the locked amount of every denomination, and panics exactly when a
  // malformed denomination is half-way vested.
  lemma VestingTotal(s: Schedule, ov: Coins, t: int)
    requires Canonical(ov)
    ensures VestingCoins(s, ov, t).None? <==> Underway(s, t) && !ValidDenoms(ov)
    ensures var v := VestingCoins(s, ov, t);
            v.Some? ==> Canonical(v.value) && forall d :: Total(v.value, d) == Locked(s, Total(ov, d), t)
  {
    LockedTotal(s, ov, t);
    if Underway(s, t) { VestedNotNegative(s, ov, t); }
  }

  // An account may start with {10aaa, 10b}, which is valid, and cannot be read while it vests.
  lemma VestingCanPanic(s: Schedule, t: int)
    requires Underway(s, t)
    ensures var ov := [Coin([97, 97, 97], 10), Coin([98], 10)]; IsValid(ov) && VestingCoins(s, ov, t).None?
  {
    var ov := [Coin([97, 97, 97], 10), Coin([98], 10)];
    assert IsValid(ov) by { assert ov[1..] == [Coin([98], 10)]; }
    IsValidMeans(ov);
    assert !ValidDenom(ov[1].denom);
    VestingTotal(s, ov, t);
  }

  // ---------- One denomination of one account ----------

  // Base coins, delegated free coins, delegated vesting coins.
  datatype Slot = Slot(bc: int, df: int, dv: int)

  function Spendable(x: Slot, v: int): int {
    Min(x.bc + x.dv - v, x.bc)
  }

  function Delegated(x: Slot, v: int, n: int): Slot {
    var locked := Min(Max(v - x.dv, 0), n);
    Slot(x.bc - n, x.df + n - locked, x.dv + locked)
  }

  function Undelegated(x: Slot, n: int): Slot {
    var free := Min(x.df, n);
    var vesting := Min(x.dv, n - free);
    Slot(x.bc + n, x.df - free, x.dv - vesting)
  }

  // An amount may be spent exactly when it is there and leaves the locked coins covered.
  lemma SpendableIs(x: Slot, v: int, n: int)
    ensures n <= Spendable(x, v) <==> n <= x.bc && (x.bc - n) + x.dv >= v
  {}

  // A delegation takes locked coins first: free ones only once all that is locked is delegated, and never more
  // locked ones than there are. An undelegation gives back free coins first.
  lemma DelegationOrder(x: Slot, v: int, n: nat)
    requires x.df >= 0 && x.dv >= 0
    ensures var y := Delegated(x, v, n);
            y.bc == x.bc - n && y.df + y.dv == x.df + x.dv + n && y.df >= x.df && y.dv >= x.dv &&
            (y.df > x.df ==> y.dv >= v) && (y.dv > x.dv ==> y.dv <= v)
    ensures var y := Undelegated(x, n);
            y.bc == x.bc + n && 0 <= y.df <= x.df && 0 <= y.dv <= x.dv &&
            (y.dv < x.dv ==> y.df == 0) && (y.df + y.dv == x.df + x.dv - n || (y.df == 0 && y.dv == 0 && n >= x.df + x.dv))
  {}

  datatype Event = Receive(n: nat) | Spend(n: nat) | Delegate(n: nat) | Undelegate(n: nat) | Advance(to: int)

  datatype Holding = Holding(slot: Slot, now: int)

  // An event the bank keeper or the ante handler would refuse changes nothing.
  function After(s: Schedule, ov: nat, h: Holding, e: Event): Holding {
    match e
    case Receive(n) => h.(slot := h.slot.(bc := h.slot.bc + n))
    case Spend(n) => if n > Spendable(h.slot, Locked(s, ov, h.now)) then h else h.(slot := h.slot.(bc := h.slot.bc - n))
    case Delegate(n) => if n > h.slot.bc then h else h.(slot := Delegated(h.slot, Locked(s, ov, h.now), n))
    case Undelegate(n) => h.(slot := Undelegated(h.slot, n))
    case Advance(to) => if to < h.now then h else h.(now := to)
  }

  function AfterAll(s: Schedule, ov: nat, h: Holding, es: seq<Event>): Holding {
    if es == [] then h else After(s, ov, AfterAll(s, ov, h, es[..|es| - 1]), es[|es| - 1])
  }

  ghost predicate Solvent(s: Schedule, ov: nat, h: Holding) {
    h.slot.bc >= 0 && h.slot.df >= 0 && h.slot.dv >= 0 && h.slot.bc + h.slot.dv >= Locked(s, ov, h.now)
  }

  lemma StaysSolvent(s: Schedule, ov: nat, h: Holding, e: Event)
    requires Solvent(s, ov, h)
    ensures Solvent(s, ov, After(s, ov, h, e))
  {
    VestedCurve(s, ov, h.now, h.now);
    if e.Advance? && h.now <= e.to { VestedCurve(s, ov, h.now, e.to); }
  }

  // In every run the spendable amount is never negative, and what is left in the account always
  // covers the locked coins that are not delegated: locked coins are never spent.
  lemma {:induction false} LockedIsNeverSpent(s: Schedule, ov: nat, h: Holding, es: seq<Event>)
    requires Solvent(s, ov, h)
    ensures var h' := AfterAll(s, ov, h, es);
            Solvent(s, ov, h') &&
            Spendable(h'.slot, Locked(s, ov, h'.now)) >= 0 &&
            h'.slot.bc >= Max(Locked(s, ov, h'.now) - h'.slot.dv, 0)
  {
    if es != [] {
      LockedIsNeverSpent(s, ov, h, es[..|es| - 1]);
      StaysSolvent(s, ov, AfterAll(s, ov, h, es[..|es| - 1]), es[|es| - 1]);
    }
  }

  // ---------- The account's coin lists ----------

  datatype Lists = Lists(coins: Coins, free: Coins, vesting: Coins)

  ghost function SlotOf(a: Lists, d: Bytes): Slot {
    Slot(Total(a.coins, d), Total(a.free, d), Total(a.vesting, d))
  }

  predicate WellFormed(a: Lists) {
    Canonical(a.coins) && Canonical(a.free) && Canonical(a.vesting)
  }

  function Plus(cs: Coins, d: Bytes, n: int): Coins {
    if n == 0 then cs else Add(cs, [Coin(d, n)])
  }

  function Minus(cs: Coins, d: Bytes, n: int): Coins {
    if n == 0 then cs else Sub(cs, [Coin(d, n)])
  }

  lemma PlusTotals(cs: Coins, d: Bytes, n: int)
    requires Canonical(cs) && n >= 0
    ensures Canonical(Plus(cs, d, n))
    ensures forall e :: Total(Plus(cs, d, n), e) == Total(cs, e) + if e == d then n else 0
  {
    if n > 0 { SumIsCanonical(cs, [Coin(d, n)]); }
    forall e ensures Total(Plus(cs, d, n), e) == Total(cs, e) + if e == d then n else 0 {
      AddTotal(cs, [Coin(d, n)], e);
    }
  }

  lemma MinusTotals(cs: Coins, d: Bytes, n: int)
    requires Canonical(cs) && 0 <= n <= Total(cs, d)
    ensures Canonical(Minus(cs, d, n)) && !AnyNegative(Minus(cs, d, n))
    ensures forall e :: Total(Minus(cs, d, n), e) == Total(cs, e) - if e == d then n else 0
  {
    var r := Minus(cs, d, n);
    SubShape(cs, [Coin(d, n)]);
    forall e ensures Total(r, e) == Total(cs, e) - (if e == d then n else 0) >= 0 {
      SubTotal(cs, [Coin(d, n)], e);
      CanonicalTotals(cs, e);
    }
    PositiveTotals(r);
  }

  // One round of trackDelegation's loop; None is a panic.
  function DelegateOne(a: Lists, bc: Coins, v: Coins, c: Coin): Option<Lists> {
    if !ValidDenom(c.denom) then None
    else
      var base, vesting, delVesting := AmountOf(bc, c.denom), AmountOf(v, c.denom), AmountOf(a.vesting, c.denom);
      if c.amount == 0 || base < c.amount then None
      else
        var x := Min(Max(vesting - delVesting, 0), c.amount);
        var y := c.amount - x;
        var coins := Sub(a.coins, [c]);
        if x < 0 || y < 0 || AnyNegative(coins) then None
        else Some(Lists(coins, Plus(a.free, c.denom, y), Plus(a.vesting, c.denom, x)))
  }

  function DelegateEach(a: Lists, bc: Coins, v: Coins, cs: Coins): Option<Lists> {
    if cs == [] then Some(a)
    else
      var r := DelegateEach(a, bc, v, cs[..|cs| - 1]);
      if r.None? then None else DelegateOne(r.value, bc, v, cs[|cs| - 1])
  }

  // One round of TrackUndelegation's loop.
  function UndelegateOne(a: Lists, c: Coin): Option<Lists> {
    if c.amount == 0 || !ValidDenom(c.denom) then None
    else
      var x := Min(AmountOf(a.free, c.denom), c.amount);
      var y := Min(AmountOf(a.vesting, c.denom), c.amount - x);
      var free, vesting := Minus(a.free, c.denom, x), Minus(a.vesting, c.denom, y);
      if x < 0 || y < 0 || AnyNegative(free) || AnyNegative(vesting) then None
      else Some(Lists(Add(a.coins, [c]), free, vesting))
  }

  function UndelegateEach(a: Lists, cs: Coins): Option<Lists> {
    if cs == [] then Some(a)
    else
      var r := UndelegateEach(a, cs[..|cs| - 1]);
      if r.None? then None else UndelegateOne(r.value, cs[|cs| - 1])
  }

  // How much of a delegation counts against the locked coins.
  ghost function LockedShare(a: Lists, v: Coins, c: Coin): int {
    Min(Max(Total(v, c.denom) - Total(a.vesting, c.denom), 0), c.amount)
  }

  lemma DelegateOneResult(a: Lists, bc: Coins, v: Coins, c: Coin)
    requires WellFormed(a) && Canonical(bc) && Canonical(v) && ValidDenom(c.denom)
    requires 0 < c.amount <= Total(a.coins, c.denom) <= Total(bc, c.denom)
    ensures var x := LockedShare(a, v, c);
            0 <= x <= c.amount &&
            DelegateOne(a, bc, v, c) ==
            Some(Lists(Minus(a.coins, c.denom, c.amount), Plus(a.free, c.denom, c.amount - x), Plus(a.vesting, c.denom, x)))
  {
    AmountOfIsTotal(bc, c.denom);
    AmountOfIsTotal(v, c.denom);
    AmountOfIsTotal(a.vesting, c.denom);
    assert Coin(c.denom, c.amount) == c;
    MinusTotals(a.coins, c.denom, c.amount);
  }

  lemma DelegateOneIsSlot(a: Lists, bc: Coins, v: Coins, c: Coin)
    requires WellFormed(a) && Canonical(bc) && Canonical(v) && ValidDenom(c.denom)
    requires 0 < c.amount <= Total(a.coins, c.denom) <= Total(bc, c.denom)
    ensures var r := DelegateOne(a, bc, v, c);
            r.Some? && WellFormed(r.value) &&
            forall d :: SlotOf(r.value, d) ==
              if d == c.denom then Delegated(SlotOf(a, d), Total(v, d), c.amount) else SlotOf(a, d)
  {
    DelegateOneResult(a, bc, v, c);
    var x := LockedShare(a, v, c);
    MinusTotals(a.coins, c.denom, c.amount);
    PlusTotals(a.free, c.denom, c.amount - x);
    PlusTotals(a.vesting, c.denom, x);
    MovedSlots(a, DelegateOne(a, bc, v, c).value, c.denom, -c.amount, c.amount - x, x);
  }

  lemma MovedSlots(a: Lists, r: Lists, d: Bytes, bc: int, df: int, dv: int)
    requires forall e :: Total(r.coins, e) == Total(a.coins, e) + if e == d then bc else 0
    requires forall e :: Total(r.free, e) == Total(a.free, e) + if e == d then df else 0
    requires forall e :: Total(r.vesting, e) == Total(a.vesting, e) + if e == d then dv else 0
    ensures forall e :: SlotOf(r, e) ==
              if e == d then Slot(SlotOf(a, e).bc + bc, SlotOf(a, e).df + df, SlotOf(a, e).dv + dv) else SlotOf(a, e)
  {}

  lemma UndelegateOneResult(a: Lists, c: Coin)
    requires WellFormed(a) && ValidDenom(c.denom) && 0 < c.amount
    ensures var x := Min(Total(a.free, c.denom), c.amount); var y := Min(Total(a.vesting, c.denom), c.amount - x);
            0 <= x && 0 <= y &&
            UndelegateOne(a, c) ==
            Some(Lists(Plus(a.coins, c.denom, c.amount), Minus(a.free, c.denom, x), Minus(a.vesting, c.denom, y)))
  {
    AmountOfIsTotal(a.free, c.denom);
    AmountOfIsTotal(a.vesting, c.denom);
    CanonicalTotals(a.free, c.denom);
    CanonicalTotals(a.vesting, c.denom);
    assert Coin(c.denom, c.amount) == c;
    var x := Min(Total(a.free, c.denom), c.amount);
    MinusTotals(a.free, c.denom, x);
    MinusTotals(a.vesting, c.denom, Min(Total(a.vesting, c.denom), c.amount - x));
  }

  lemma UndelegateOneIsSlot(a: Lists, c: Coin)
    requires WellFormed(a) && ValidDenom(c.denom) && 0 < c.amount
    ensures var r := UndelegateOne(a, c);
            r.Some? && WellFormed(r.value) &&
            forall d :: SlotOf(r.value, d) ==
              if d == c.denom then Undelegated(SlotOf(a, d), c.amount) else SlotOf(a, d)
  {
    UndelegateOneResult(a, c);
    var x := Min(Total(a.free, c.denom), c.amount);
    var y := Min(Total(a.vesting, c.denom), c.amount - x);
    UndelegateLists(a, c.denom, c.amount, x, y);
  }

  lemma UndelegateLists(a: Lists, d: Bytes, n: int, x: int, y: int)
    requires WellFormed(a) && ValidDenom(d) && 0 < n
    requires x == Min(Total(a.free, d), n) >= 0 && y == Min(Total(a.vesting, d), n - x) >= 0
    ensures var r := Lists(Plus(a.coins, d, n), Minus(a.free, d, x), Minus(a.vesting, d, y));
            WellFormed(r) &&
            forall e :: SlotOf(r, e) == if e == d then Undelegated(SlotOf(a, e), n) else SlotOf(a, e)
  {
    PlusTotals(a.coins, d, n);
    MinusTotals(a.free, d, x);
    MinusTotals(a.vesting, d, y);
    MovedSlots(a, Lists(Plus(a.coins, d, n), Minus(a.free, d, x), Minus(a.vesting, d, y)), d, n, -x, -y);
  }

  lemma {:induction false} SnocTotals(cs: Coins)
    requires cs != [] && Canonical(cs)
    ensures var init, c := cs[..|cs| - 1], cs[|cs| - 1];
            Canonical(init) && Total(init, c.denom) == 0 &&
            forall d :: Total(cs, d) == Total(init, d) + if d == c.denom then c.amount else 0
  {
    var init, c := cs[..|cs| - 1], cs[|cs| - 1];
    assert cs == init + [c];
    SortedSplit(cs, |cs| - 1);
    forall d ensures Total(cs, d) == Total(init, d) + if d == c.denom then c.amount else 0 {
      TotalConcat(init, [c], d);
    }
    TotalAt(cs, |cs| - 1);
  }

  // The loop of trackDelegation does to every denomination what the specification says.
  lemma {:induction false} DelegateEachIsSlot(a: Lists, v: Coins, cs: Coins)
    requires WellFormed(a) && Canonical(v) && Canonical(cs) && ValidDenoms(cs)
    requires forall d :: Total(cs, d) <= Total(a.coins, d)
    ensures var r := DelegateEach(a, a.coins, v, cs);
            r.Some? && WellFormed(r.value) &&
            forall d :: SlotOf(r.value, d) == Delegated(SlotOf(a, d), Total(v, d), Total(cs, d))
  {
    if cs == [] {
    } else {
      var init, c := cs[..|cs| - 1], cs[|cs| - 1];
      SnocTotals(cs);
      forall d ensures Total(init, d) <= Total(a.coins, d) {
        CanonicalTotals(cs, d);
        CanonicalTotals(a.coins, d);
      }
      DelegateEachIsSlot(a, v, init);
      var m := DelegateEach(a, a.coins, v, init).value;
      assert SlotOf(m, c.denom) == Delegated(SlotOf(a, c.denom), Total(v, c.denom), 0);
      assert Total(cs, c.denom) <= Total(a.coins, c.denom);
      DelegateOneIsSlot(m, a.coins, v, c);
    }
  }

  lemma {:induction false} UndelegateEachIsSlot(a: Lists, cs: Coins)
    requires WellFormed(a) && Canonical(cs) && ValidDenoms(cs)
    ensures var r := UndelegateEach(a, cs);
            r.Some? && WellFormed(r.value) &&
            forall d :: SlotOf(r.value, d) == Undelegated(SlotOf(a, d), Total(cs, d))
  {
    UndelegateNothing(a);
    if cs != [] {
      var init, c := cs[..|cs| - 1], cs[|cs| - 1];
      SnocTotals(cs);
      UndelegateEachIsSlot(a, init);
      var m := UndelegateEach(a, init).value;
      UndelegateOneIsSlot(m, c);
      UndelegateStep(a, cs, init, c, m, UndelegateOne(m, c).value);
    }
  }

  lemma UndelegateNothing(a: Lists)
    requires WellFormed(a)
    ensures forall d :: SlotOf(a, d) == Undelegated(SlotOf(a, d), 0)
  {
    forall d ensures SlotOf(a, d) == Undelegated(SlotOf(a, d), 0) {
      CanonicalTotals(a.free, d);
      CanonicalTotals(a.vesting, d);
    }
  }

  lemma UndelegateStep(a: Lists, cs: Coins, init: Coins, c: Coin, m: Lists, r: Lists)
    requires Total(init, c.denom) == 0 && SlotOf(a, c.denom) == Undelegated(SlotOf(a, c.denom), 0)
    requires forall d :: Total(cs, d) == Total(init, d) + if d == c.denom then c.amount else 0
    requires forall d :: SlotOf(m, d) == Undelegated(SlotOf(a, d), Total(init, d))
    requires forall d :: SlotOf(r, d) == if d == c.denom then Undelegated(SlotOf(m, d), c.amount) else SlotOf(m, d)
    ensures forall d :: SlotOf(r, d) == Undelegated(SlotOf(a, d), Total(cs, d))
  {}

  // spendableCoins' loop: min((BC + DV) - V, BC) of each coin held; NewCoin panics on a negative one.
  function SpendableEach(a: Lists, v: Coins, cs: Coins): Option<Coins> {
    if cs == [] then Some([]) else WithSpendable(a, v, SpendableEach(a, v, cs[..|cs| - 1]), cs[|cs| - 1])
  }

  function WithSpendable(a: Lists, v: Coins, r: Option<Coins>, c: Coin): Option<Coins> {
    if r.None? || !ValidDenom(c.denom) then None
    else
      var n := Min(c.amount + AmountOf(a.vesting, c.denom) - AmountOf(v, c.denom), c.amount);
      if n < 0 then None else Some(Plus(r.value, c.denom, n))
  }

  lemma SpendableNext(a: Lists, v: Coins, cs: Coins, i: nat)
    requires i < |cs|
    ensures SpendableEach(a, v, cs[..i + 1]) == WithSpendable(a, v, SpendableEach(a, v, cs[..i]), cs[i])
  {
    assert cs[..i + 1][..i] == cs[..i];
  }

  ghost predicate Listable(a: Lists, v: Coins, c: Coin) {
    ValidDenom(c.denom) && c.amount >= 0 && c.amount + Total(a.vesting, c.denom) >= Total(v, c.denom)
  }

  // Exactly when the loop does not panic.
  lemma {:induction false} SpendableIff(a: Lists, v: Coins, cs: Coins)
    requires WellFormed(a) && Canonical(v)
    ensures SpendableEach(a, v, cs).Some? <==> forall i :: 0 <= i < |cs| ==> Listable(a, v, cs[i])
  {
    if cs != [] {
      var init, c := cs[..|cs| - 1], cs[|cs| - 1];
      SpendableIff(a, v, init);
      AmountOfIsTotal(a.vesting, c.denom);
      AmountOfIsTotal(v, c.denom);
      assert forall i :: 0 <= i < |init| ==> init[i] == cs[i];
    }
  }

  ghost predicate Covered(a: Lists, v: Coins) {
    forall d :: Total(a.coins, d) + Total(a.vesting, d) >= Total(v, d)
  }

  ghost function Share(a: Lists, v: Coins, have: int, d: Bytes): int {
    if have == 0 then 0 else Min(have + Total(a.vesting, d) - Total(v, d), have)
  }

  lemma {:induction false} SpendableEachTotals(a: Lists, v: Coins, cs: Coins)
    requires WellFormed(a) && Canonical(v) && Canonical(cs) && ValidDenoms(cs)
    requires forall i :: 0 <= i < |cs| ==> cs[i].amount + Total(a.vesting, cs[i].denom) >= Total(v, cs[i].denom)
    ensures var r := SpendableEach(a, v, cs);
            r.Some? && Canonical(r.value) && forall d :: Total(r.value, d) == Share(a, v, Total(cs, d), d)
  {
    if cs != [] {
      var init, c := cs[..|cs| - 1], cs[|cs| - 1];
      SnocTotals(cs);
      SpendableEachTotals(a, v, init);
      AmountOfIsTotal(a.vesting, c.denom);
      AmountOfIsTotal(v, c.denom);
      var n := Min(c.amount + Total(a.vesting, c.denom) - Total(v, c.denom), c.amount);
      var r0 := SpendableEach(a, v, init).value;
      SpendableSnoc(a, v, cs, r0, n);
      PlusTotals(r0, c.denom, n);
      ShareStep(a, v, cs, init, c, r0, Plus(r0, c.denom, n));
    }
  }

  lemma SpendableSnoc(a: Lists, v: Coins, cs: Coins, r0: Coins, n: int)
    requires cs != [] && SpendableEach(a, v, cs[..|cs| - 1]) == Some(r0) && ValidDenom(cs[|cs| - 1].denom)
    requires var c := cs[|cs| - 1]; 0 <= n == Min(c.amount + AmountOf(a.vesting, c.denom) - AmountOf(v, c.denom), c.amount)
    ensures SpendableEach(a, v, cs) == Some(Plus(r0, cs[|cs| - 1].denom, n))
  {}

  lemma ShareStep(a: Lists, v: Coins, cs: Coins, init: Coins, c: Coin, r0: Coins, r: Coins)
    requires c.amount > 0 && Total(init, c.denom) == 0
    requires forall d :: Total(cs, d) == Total(init, d) + if d == c.denom then c.amount else 0
    requires forall d :: Total(r0, d) == Share(a, v, Total(init, d), d)
    requires forall d :: Total(r, d) == Total(r0, d) + if d == c.denom then Share(a, v, c.amount, d) else 0
    ensures forall d :: Total(r, d) == Share(a, v, Total(cs, d), d)
  {}

  // With the locked coins covered, SpendableCoins does not panic and lists what may be spent.
  lemma SpendableTotals(a: Lists, v: Coins)
    requires WellFormed(a) && Canonical(v) && ValidDenoms(a.coins) && Covered(a, v)
    ensures var r := SpendableEach(a, v, a.coins);
            r.Some? && Canonical(r.value) && forall d :: Total(r.value, d) == Spendable(SlotOf(a, d), Total(v, d))
  {
    forall i | 0 <= i < |a.coins|
      ensures a.coins[i].amount + Total(a.vesting, a.coins[i].denom) >= Total(v, a.coins[i].denom) {
      TotalAt(a.coins, i);
      assert Total(a.coins, a.coins[i].denom) + Total(a.vesting, a.coins[i].denom) >= Total(v, a.coins[i].denom);
    }
    SpendableEachTotals(a, v, a.coins);
    var r := SpendableEach(a, v, a.coins).value;
    forall d ensures Total(r, d) == Spendable(SlotOf(a, d), Total(v, d)) {
      CanonicalTotals(a.coins, d);
      assert Total(a.coins, d) + Total(a.vesting, d) >= Total(v, d);
    }
  }

  // ---------- The account ----------

  class VestingAccount {
    const schedule: Schedule
    const original: Coins
    var coins: Coins
    var free: Coins
    var vesting: Coins

    ghost function State(): Lists
      reads this
    {
      Lists(coins, free, vesting)
    }

    // Every denomination is solvent at time t. Only well-formed denominations are in circulation.
    ghost predicate Ok(t: int)
      reads this
    {
      Canonical(original) && ValidDenoms(original) && WellFormed(State()) && ValidDenoms(coins) &&
      var v := VestingCoins(schedule, original, t);
      v.Some? && Covered(State(), v.value)
    }

    // NewContinuousVestingAccount / NewDelayedVestingAccount
    constructor (s: Schedule, initial: Coins, t: int)
      requires Canonical(initial) && ValidDenoms(initial)
      ensures schedule == s && original == coins == initial && Ok(t)
    {
      schedule, original, coins, free, vesting := s, initial, initial, [], [];
      new;
      VestingTotal(s, initial, t);
      forall d ensures Total(coins, d) >= Total(VestingCoins(s, initial, t).value, d) {
        CanonicalTotals(initial, d);
        VestedCurve(s, Total(initial, d), t, t);
      }
    }

    // Time only unlocks coins.
    lemma Later(t: int, t': int)
      requires Ok(t) && t <= t'
      ensures Ok(t')
    {
      VestingTotal(schedule, original, t);
      VestingTotal(schedule, original, t');
      forall d ensures Total(coins, d) + Total(vesting, d) >= Total(VestingCoins(schedule, original, t').value, d) {
        CanonicalTotals(original, d);
        VestedCurve(schedule, Total(original, d), t, t');
        assert Total(coins, d) + Total(vesting, d) >= Total(VestingCoins(schedule, original, t).value, d);
      }
    }

    method SpendableCoins(t: int) returns (r: Option<Coins>)
      requires Ok(t)
      ensures r.Some? && Canonical(r.value)
      ensures forall d :: Total(r.value, d) == Spendable(SlotOf(State(), d), Locked(schedule, Total(original, d), t))
    {
      var v := VestingCoins(schedule, original, t).value;
      VestingTotal(schedule, original, t);
      SpendableTotals(State(), v);
      r := Some([]);
      var i := 0;
      while i < |coins|
        invariant i <= |coins| && r == SpendableEach(State(), v, coins[..i])
      {
        SpendableNext(State(), v, coins, i);
        r := ListCoin(r, coins[i], v);
        i := i + 1;
      }
      assert coins[..i] == coins;
    }

    method ListCoin(r: Option<Coins>, c: Coin, v: Coins) returns (r': Option<Coins>)
      ensures r' == WithSpendable(State(), v, r, c)
    {
      if r.None? || !ValidDenom(c.denom) {
        return None;
      }
      var n := Min(c.amount + AmountOf(vesting, c.denom) - AmountOf(v, c.denom), c.amount);
      return if n < 0 then None else Some(Plus(r.value, c.denom, n));
    }

    // subtractCoins of the bank keeper on this account: refused unless the amount is spendable.
    method SubtractCoins(t: int, amt: Coins) returns (ok: bool)
      requires Ok(t) && Canonical(amt)
      modifies this`coins
      ensures Ok(t)
      ensures ok <==> forall d :: Total(amt, d) <= Spendable(old(SlotOf(State(), d)), Locked(schedule, Total(original, d), t))
      ensures forall d :: Total(coins, d) == old(Total(coins, d)) - if ok then Total(amt, d) else 0
    {
      var spendable := SpendableCoins(t);
      SafeSubFlag(spendable.value, amt);
      ok := !AnyNegative(Sub(spendable.value, amt));
      if ok {
        VestingTotal(schedule, original, t);
        SpendKeeps(State(), VestingCoins(schedule, original, t).value, amt);
        coins := Sub(coins, amt);
      }
    }

    // addCoins of the bank keeper on this account.
    method AddCoins(t: int, amt: Coins)
      requires Ok(t) && Canonical(amt) && ValidDenoms(amt)
      modifies this`coins
      ensures Ok(t) && forall d :: Total(coins, d) == old(Total(coins, d)) + Total(amt, d)
    {
      SumIsCanonical(coins, amt);
      ReceiveKeeps(State(), VestingCoins(schedule, original, t).value, amt);
      coins := Add(coins, amt);
    }

    method TrackDelegation(t: int, amt: Coins) returns (panicked: bool)
      requires Ok(t) && Canonical(amt) && ValidDenoms(amt)
      requires forall d :: Total(amt, d) <= Total(coins, d)
      modifies this
      ensures !panicked && Ok(t)
      ensures forall d :: SlotOf(State(), d) ==
                Delegated(old(SlotOf(State(), d)), Locked(schedule, Total(original, d), t), Total(amt, d))
    {
      var v := VestingCoins(schedule, original, t).value;
      VestingTotal(schedule, original, t);
      ghost var was := State();
      DelegateEachIsSlot(was, v, amt);
      DelegateKeeps(was, v, amt);
      DelegateCoins(v, amt);
      panicked := false;
    }

    // The loop over the coins delegated.
    method DelegateCoins(v: Coins, amt: Coins)
      requires DelegateEach(State(), coins, v, amt).Some?
      modifies `coins, `free, `vesting
      ensures DelegateEach(old(State()), old(coins), v, amt) == Some(State())
    {
      var bc := coins;
      var i := 0;
      while i < |amt|
        invariant i <= |amt|
        invariant DelegateEach(old(State()), bc, v, amt[..i]) == Some(State())
      {
        assert amt[..i + 1][..i] == amt[..i] && amt[..i + 1][i] == amt[i];
        DelegatePrefix(old(State()), bc, v, amt, i + 1);
        var r := DelegateOne(Lists(coins, free, vesting), bc, v, amt[i]);
        coins, free, vesting := r.value.coins, r.value.free, r.value.vesting;
        i := i + 1;
      }
      assert amt[..i] == amt;
    }

    method TrackUndelegation(t: int, amt: Coins) returns (panicked: bool)
      requires Ok(t) && Canonical(amt) && ValidDenoms(amt)
      modifies this
      ensures !panicked && Ok(t)
      ensures forall d :: SlotOf(State(), d) == Undelegated(old(SlotOf(State(), d)), Total(amt, d))
    {
      ghost var was := State();
      UndelegateEachIsSlot(was, amt);
      UndelegateKeeps(was, VestingCoins(schedule, original, t).value, amt);
      UndelegateCoins(amt);
      panicked := false;
    }

    method UndelegateCoins(amt: Coins)
      requires UndelegateEach(State(), amt).Some?
      modifies `coins, `free, `vesting
      ensures UndelegateEach(old(State()), amt) == Some(State())
    {
      var i := 0;
      while i < |amt|
        invariant i <= |amt|
        invariant UndelegateEach(old(State()), amt[..i]) == Some(State())
      {
        assert amt[..i + 1][..i] == amt[..i] && amt[..i + 1][i] == amt[i];
        UndelegatePrefix(old(State()), amt, i + 1);
        var r := UndelegateOne(Lists(coins, free, vesting), amt[i]);
        coins, free, vesting := r.value.coins, r.value.free, r.value.vesting;
        i := i + 1;
      }
      assert amt[..i] == amt;
    }
  }

  // ---------- Solvency and denominations of the lists ----------

  lemma {:induction false} DelegatePrefix(a: Lists, bc: Coins, v: Coins, cs: Coins, n: nat)
    requires n <= |cs| && DelegateEach(a, bc, v, cs).Some?
    ensures DelegateEach(a, bc, v, cs[..n]).Some?
  {
    if n < |cs| {
      assert cs[..|cs| - 1][..n] == cs[..n];
      DelegatePrefix(a, bc, v, cs[..|cs| - 1], n);
    } else {
      assert cs[..n] == cs;
    }
  }

  lemma {:induction false} UndelegatePrefix(a: Lists, cs: Coins, n: nat)
    requires n <= |cs| && UndelegateEach(a, cs).Some?
    ensures UndelegateEach(a, cs[..n]).Some?
  {
    if n < |cs| {
      assert cs[..|cs| - 1][..n] == cs[..n];
      UndelegatePrefix(a, cs[..|cs| - 1], n);
    } else {
      assert cs[..n] == cs;
    }
  }

  // Denominations held afterwards were held before or just received.
  lemma DenomsStayValid(before: Coins, amt: Coins, after: Coins)
    requires ValidDenoms(before) && ValidDenoms(amt) && Canonical(after)
    requires forall d :: Total(after, d) != 0 ==> Total(before, d) != 0 || Total(amt, d) != 0
    ensures ValidDenoms(after)
  {
    forall i | 0 <= i < |after| ensures ValidDenom(after[i].denom) {
      var d := after[i].denom;
      TotalAt(after, i);
      if Total(before, d) != 0 { TotalHasDenom(before, d); } else { TotalHasDenom(amt, d); }
    }
  }

  lemma SpendKeeps(a: Lists, v: Coins, amt: Coins)
    requires WellFormed(a) && ValidDenoms(a.coins) && Canonical(v) && Canonical(amt)
    requires forall d :: Total(amt, d) <= Spendable(SlotOf(a, d), Total(v, d))
    ensures var b := a.(coins := Sub(a.coins, amt));
            WellFormed(b) && ValidDenoms(b.coins) && Covered(b, v) &&
            forall d :: Total(b.coins, d) == Total(a.coins, d) - Total(amt, d)
  {
    var after := Sub(a.coins, amt);
    SubShape(a.coins, amt);
    forall d ensures Total(after, d) == Total(a.coins, d) - Total(amt, d) >= 0 {
      SubTotal(a.coins, amt, d);
      assert Total(amt, d) <= Spendable(SlotOf(a, d), Total(v, d));
    }
    PositiveTotals(after);
    forall d ensures Total(after, d) != 0 ==> Total(a.coins, d) != 0 {
      CanonicalTotals(amt, d);
    }
    DenomsStayValid(a.coins, [], after);
    forall d ensures Total(after, d) + Total(a.vesting, d) >= Total(v, d) {
      assert Total(amt, d) <= Spendable(SlotOf(a, d), Total(v, d));
    }
  }

  lemma ReceiveKeeps(a: Lists, v: Coins, amt: Coins)
    requires WellFormed(a) && ValidDenoms(a.coins) && Covered(a, v) && Canonical(amt) && ValidDenoms(amt)
    ensures var b := a.(coins := Add(a.coins, amt));
            WellFormed(b) && ValidDenoms(b.coins) && Covered(b, v) &&
            forall d :: Total(b.coins, d) == Total(a.coins, d) + Total(amt, d)
  {
    var after := Add(a.coins, amt);
    SumIsCanonical(a.coins, amt);
    forall d ensures Total(after, d) == Total(a.coins, d) + Total(amt, d) && Total(amt, d) >= 0 {
      AddTotal(a.coins, amt, d);
      CanonicalTotals(amt, d);
    }
    DenomsStayValid(a.coins, amt, after);
    forall d ensures Total(after, d) + Total(a.vesting, d) >= Total(v, d) {
      assert Total(a.coins, d) + Total(a.vesting, d) >= Total(v, d);
    }
  }

  lemma DelegateKeeps(a: Lists, v: Coins, amt: Coins)
    requires WellFormed(a) && ValidDenoms(a.coins) && Covered(a, v)
    requires Canonical(v) && Canonical(amt) && ValidDenoms(amt) && forall d :: Total(amt, d) <= Total(a.coins, d)
    ensures var r := DelegateEach(a, a.coins, v, amt); r.Some? && ValidDenoms(r.value.coins) && Covered(r.value, v)
  {
    DelegateEachIsSlot(a, v, amt);
    var r := DelegateEach(a, a.coins, v, amt).value;
    forall d ensures Total(r.coins, d) == Total(a.coins, d) - Total(amt, d)
             ensures Total(r.coins, d) + Total(r.vesting, d) >= Total(v, d) {
      assert SlotOf(r, d) == Delegated(SlotOf(a, d), Total(v, d), Total(amt, d));
      assert Total(amt, d) <= Total(a.coins, d);
      assert Total(a.coins, d) + Total(a.vesting, d) >= Total(v, d);
    }
    forall d ensures Total(r.coins, d) != 0 ==> Total(a.coins, d) != 0 {
      CanonicalTotals(amt, d);
      CanonicalTotals(r.coins, d);
    }
    DenomsStayValid(a.coins, [], r.coins);
  }

  lemma UndelegateKeeps(a: Lists, v: Coins, amt: Coins)
    requires WellFormed(a) && ValidDenoms(a.coins) && Covered(a, v) && Canonical(amt) && ValidDenoms(amt)
    ensures var r := UndelegateEach(a, amt); r.Some? && ValidDenoms(r.value.coins) && Covered(r.value, v)
  {
    UndelegateEachIsSlot(a, amt);
    var r := UndelegateEach(a, amt).value;
    forall d ensures Total(r.coins, d) == Total(a.coins, d) + Total(amt, d)
             ensures Total(r.coins, d) + Total(r.vesting, d) >= Total(v, d) {
      assert SlotOf(r, d) == Undelegated(SlotOf(a, d), Total(amt, d));
      CanonicalTotals(amt, d);
      CanonicalTotals(a.free, d);
      assert Total(a.coins, d) + Total(a.vesting, d) >= Total(v, d);
    }
    DenomsStayValid(a.coins, amt, r.coins);
  }
}
