// x/slashing/keeper.go, x/slashing/signing_info.go, x/slashing/handler.go: the sliding window of
// missed blocks kept as a ring of bits and a counter, and the one-way door of a double signature.

module Slashing {
  import opened Bytes
  import opened Calls
  import opened Decimal
  import opened MapSum

  type Addr = Bytes

  // ---------- A window over a history ----------

  function Count(s: seq<bool>): nat {
    if s == [] then 0 else Count(s[..|s| - 1]) + if s[|s| - 1] then 1 else 0
  }

  // The last min(n, window) entries.
  function Recent(h: seq<bool>, window: nat): seq<bool> {
    if |h| <= window then h else h[|h| - window..]
  }

  lemma {:induction false} CountDrop(s: seq<bool>)
    requires s != []
    ensures Count(s[1..]) == Count(s) - if s[0] then 1 else 0
  {
    if |s| == 1 {
      assert s[1..] == [] && s[..0] == [];
    } else {
      CountDrop(s[..|s| - 1]);
      assert s[..|s| - 1][1..] == s[1..][..|s| - 2];
    }
  }

  // One more entry pushes the oldest out of a full window.
  lemma RecentSnoc(h: seq<bool>, x: bool, window: nat)
    requires window > 0
    ensures Count(Recent(h + [x], window)) ==
            Count(Recent(h, window)) + (if x then 1 else 0) - if |h| >= window && h[|h| - window] then 1 else 0
  {
    var r := Recent(h, window);
    assert (r + [x])[..|r|] == r;
    if |h| >= window {
      assert r == h[|h| - window..];
      assert Recent(h + [x], window) == (r + [x])[1..];
      CountDrop(r + [x]);
    } else {
      assert Recent(h + [x], window) == r + [x];
    }
  }

  // ---------- The ring of bits ----------

  // What the history wrote last at an index of the ring.
  function Slot(h: seq<bool>, window: nat, i: nat): bool
    requires window > 0
  {
    if h == [] then false
    else if (|h| - 1) % window == i then h[|h| - 1]
    else Slot(h[..|h| - 1], window, i)
  }

  lemma ModUnique(n: int, m: int, q: int, r: int)
    requires 0 <= r < m && n == q * m + r
    ensures n % m == r
  {
    assert (q + 1) * m == q * m + m;
    DivUnique(n, m, q);
  }

  // Indices less than a window apart differ on the ring.
  lemma ApartOnRing(j: nat, k: nat, window: nat)
    requires j < k < j + window
    ensures j % window != k % window
  {
    var q, r := j / window, j % window;
    if r + (k - j) < window {
      ModUnique(k, window, q, r + (k - j));
    } else {
      assert (q + 1) * window == q * window + window;
      ModUnique(k, window, q + 1, r + (k - j) - window);
    }
  }

  lemma {:induction false} SlotIs(h: seq<bool>, window: nat, j: nat)
    requires 0 < window && j < |h| <= j + window
    ensures Slot(h, window, j % window) == h[j]
  {
    if j < |h| - 1 {
      ApartOnRing(j, |h| - 1, window);
      SlotIs(h[..|h| - 1], window, j);
    }
  }

  lemma {:induction false} SlotUnset(h: seq<bool>, window: nat, i: nat)
    requires |h| <= i < window
    ensures !Slot(h, window, i)
  {
    if h != [] {
      assert (|h| - 1) % window == |h| - 1;
      SlotUnset(h[..|h| - 1], window, i);
    }
  }

  // The slot about to be written holds the entry that leaves the window.
  lemma SlotNext(h: seq<bool>, window: nat)
    requires window > 0
    ensures Slot(h, window, |h| % window) == (|h| >= window && h[|h| - window])
  {
    if |h| >= window {
      SlotIs(h, window, |h| - window);
      assert (|h| - window) % window == |h| % window by { ModMinus(|h|, window); }
    } else {
      assert |h| % window == |h|;
      SlotUnset(h, window, |h|);
    }
  }

  lemma ModMinus(n: nat, m: nat)
    requires 0 < m <= n
    ensures (n - m) % m == n % m
  {
    var q, r := n / m, n % m;
    assert (q - 1) * m == q * m - m;
    ModUnique(n - m, m, q - 1, r);
  }

  type Bits = map<nat, bool>

  // An absent key is a block not missed.
  predicate Bit(bits: Bits, i: nat) {
    i in bits && bits[i]
  }

  function SetBits(bits: Bits, n: nat): nat {
    if n == 0 then 0 else SetBits(bits, n - 1) + if Bit(bits, n - 1) then 1 else 0
  }

  lemma {:induction false} SetBitsUpdate(bits: Bits, i: nat, x: bool, n: nat)
    ensures SetBits(bits[i := x], n) ==
            SetBits(bits, n) + if i >= n then 0 else (if x then 1 else 0) - (if Bit(bits, i) then 1 else 0)
  {
    if n > 0 { SetBitsUpdate(bits, i, x, n - 1); }
  }

  lemma {:induction false} SetBitsNone(bits: Bits, n: nat)
    requires forall i :: 0 <= i < n ==> !Bit(bits, i)
    ensures SetBits(bits, n) == 0
  {
    if n > 0 { SetBitsNone(bits, n - 1); }
  }

  // ---------- Signing info ----------

  datatype SigningInfo = SigningInfo(startHeight: int, indexOffset: nat, jailedUntil: int, tombstoned: bool, missed: int)

  // The part of the record that follows the signatures: offset, counter and bits.
  datatype Ring = Ring(offset: nat, missed: int, bits: Bits)

  function Step(r: Ring, window: nat, missed: bool): Ring
    requires window > 0
  {
    var i := r.offset % window;
    if Bit(r.bits, i) == missed then r.(offset := r.offset + 1)
    else Ring(r.offset + 1, r.missed + (if missed then 1 else -1), r.bits[i := missed])
  }

  // The record after the signatures since the last reset.
  function Replay(h: seq<bool>, window: nat): Ring
    requires window > 0
  {
    if h == [] then Ring(0, 0, map[]) else Step(Replay(h[..|h| - 1], window), window, h[|h| - 1])
  }

  lemma RingSnoc(bits: Bits, h: seq<bool>, window: nat, missed: bool, bits': Bits)
    requires window > 0 && forall i :: 0 <= i < window ==> Bit(bits, i) == Slot(h, window, i)
    requires bits' == if Bit(bits, |h| % window) == missed then bits else bits[|h| % window := missed]
    ensures forall i :: 0 <= i < window ==> Bit(bits', i) == Slot(h + [missed], window, i)
  {
    assert (h + [missed])[..|h|] == h;
  }

  lemma CounterSnoc(bits: Bits, h: seq<bool>, window: nat, missed: bool, bits': Bits)
    requires window > 0 && Bit(bits, |h| % window) == Slot(h, window, |h| % window)
    requires bits' == if Bit(bits, |h| % window) == missed then bits else bits[|h| % window := missed]
    ensures var change := (if missed then 1 else 0) - if Bit(bits, |h| % window) then 1 else 0;
            SetBits(bits', window) == SetBits(bits, window) + change &&
            Count(Recent(h + [missed], window)) == Count(Recent(h, window)) + change
  {
    SlotNext(h, window);
    RecentSnoc(h, missed, window);
    SetBitsUpdate(bits, |h| % window, missed, window);
  }

  // The ring: each slot holds what was last written there, and the counter is the number of set bits,
  // which is the number of misses in the window.
  lemma {:induction false} RingTracks(h: seq<bool>, window: nat)
    requires window > 0
    ensures var r := Replay(h, window);
            r.offset == |h| && r.missed == SetBits(r.bits, window) == Count(Recent(h, window)) &&
            forall i :: 0 <= i < window ==> Bit(r.bits, i) == Slot(h, window, i)
  {
    if h == [] {
      SetBitsNone(map[], window);
    } else {
      var rest, x := h[..|h| - 1], h[|h| - 1];
      RingTracks(rest, window);
      assert h == rest + [x];
      RingSnoc(Replay(rest, window).bits, rest, window, x, Replay(h, window).bits);
      CounterSnoc(Replay(rest, window).bits, rest, window, x, Replay(h, window).bits);
    }
  }

  lemma CounterIsMisses(info: SigningInfo, bits: Bits, h: seq<bool>, window: nat)
    requires window > 0 && RingOf(info, bits) == Replay(h, window)
    ensures info.missed == Count(Recent(h, window)) && info.indexOffset == |h|
  {
    RingTracks(h, window);
  }

  // A signing info whose history is h.
  function After(info: SigningInfo, h: seq<bool>, window: nat, jailedUntil: int): SigningInfo {
    info.(jailedUntil := jailedUntil, missed := Count(Recent(h, window)), indexOffset := |h|)
  }

  lemma ReplaySnoc(h: seq<bool>, window: nat, missed: bool)
    requires window > 0
    ensures Replay(h + [missed], window) == Step(Replay(h, window), window, missed)
  {
    assert (h + [missed])[..|h|] == h;
  }

  // ---------- The keeper ----------

  datatype Status = Unbonded | Unbonding | Bonded

  datatype Validator = Validator(status: Status, jailed: bool)

  // A call of validatorSet.Slash.
  datatype Slash = ForDowntime(addr: Addr) | ForDoubleSign(addr: Addr)

  function DoubleSigns(log: seq<Slash>, a: Addr): nat {
    if log == [] then 0 else DoubleSigns(log[..|log| - 1], a) + if log[|log| - 1] == ForDoubleSign(a) then 1 else 0
  }

  lemma DoubleSignsSnoc(log: seq<Slash>, s: Slash)
    ensures forall a :: DoubleSigns(log + [s], a) == DoubleSigns(log, a) + if s == ForDoubleSign(a) then 1 else 0
  {
    assert (log + [s])[..|log|] == log;
  }

  function RingOf(info: SigningInfo, bits: Bits): Ring {
    Ring(info.indexOffset, info.missed, bits)
  }

  function BitsAt(bits: map<Addr, Bits>, a: Addr): Bits {
    if a in bits then bits[a] else map[]
  }

  // Each validator's record is the replay of its history.
  ghost predicate AllTrack(infos: map<Addr, SigningInfo>, bits: map<Addr, Bits>, history: map<Addr, seq<bool>>, window: nat)
    requires window > 0
  {
    history.Keys == infos.Keys &&
    forall a :: if a in infos then RingOf(infos[a], BitsAt(bits, a)) == Replay(history[a], window) else BitsAt(bits, a) == map[]
  }

  lemma TrackOne(infos: map<Addr, SigningInfo>, bits: map<Addr, Bits>, history: map<Addr, seq<bool>>, window: nat,
                 a: Addr, info: SigningInfo, bits': map<Addr, Bits>, h: seq<bool>)
    requires window > 0 && AllTrack(infos, bits, history, window)
    requires RingOf(info, BitsAt(bits', a)) == Replay(h, window)
    requires forall b :: b != a ==> BitsAt(bits', b) == BitsAt(bits, b)
    ensures AllTrack(infos[a := info], bits', history[a := h], window)
  {
  }

  // A validator is tombstoned exactly when it has been slashed for a double signature, and that once.
  ghost predicate Logged(infos: map<Addr, SigningInfo>, slashes: seq<Slash>) {
    forall a :: DoubleSigns(slashes, a) == if a in infos && infos[a].tombstoned then 1 else 0
  }

  lemma LogOther(infos: map<Addr, SigningInfo>, slashes: seq<Slash>, a: Addr, info: SigningInfo, s: Slash)
    requires Logged(infos, slashes)
    ensures info.tombstoned == (a in infos && infos[a].tombstoned) ==> Logged(infos[a := info], slashes)
    ensures s.ForDowntime? ==> Logged(infos, slashes + [s])
    ensures s == ForDoubleSign(a) && info.tombstoned && (a in infos ==> !infos[a].tombstoned) ==>
            Logged(infos[a := info], slashes + [s])
  {
    DoubleSignsSnoc(slashes, s);
  }

  class Keeper {
    var infos: map<Addr, SigningInfo>
    var bits: map<Addr, Bits>
    var pubkeys: set<Addr>
    var validators: map<Addr, Validator>
    // Every slash so far.
    var slashes: seq<Slash>
    // The missed flags of each validator since its last reset.
    ghost var History: map<Addr, seq<bool>>

    const window: nat
    const maxMissed: int

    constructor (window: nat, minSigned: int)
      requires window > 0
      ensures Valid() && infos == map[] && this.window == window && maxMissed == window - minSigned
    {
      infos, bits, pubkeys, validators, slashes := map[], map[], {}, map[], [];
      History := map[];
      this.window, maxMissed := window, window - minSigned;
    }

    ghost predicate Valid()
      reads this
    {
      window > 0 && AllTrack(infos, bits, History, window) && Logged(infos, slashes)
    }

    // The bit array and the counter for one signature.
    method UpdateBits(a: Addr, info: SigningInfo, missed: bool) returns (info': SigningInfo)
      requires window > 0
      modifies `bits
      ensures RingOf(info', BitsAt(bits, a)) == Step(RingOf(info, BitsAt(old(bits), a)), window, missed)
      ensures info' == info.(indexOffset := info'.indexOffset, missed := info'.missed)
      ensures forall b :: b != a ==> BitsAt(bits, b) == BitsAt(old(bits), b)
    {
      var index := info.indexOffset % window;
      var previous := Bit(BitsAt(bits, a), index);
      info' := info.(indexOffset := info.indexOffset + 1);
      if !previous && missed {
        bits := bits[a := BitsAt(bits, a)[index := true]];
        info' := info'.(missed := info.missed + 1);
      } else if previous && !missed {
        bits := bits[a := BitsAt(bits, a)[index := false]];
        info' := info'.(missed := info.missed - 1);
      }
    }

    // handleValidatorSignature, up to the check of the counter.
    method RecordSignature(a: Addr, missed: bool)
      requires Valid() && a in infos
      modifies `infos, `bits, `History
      ensures Valid() && History == old(History)[a := old(History)[a] + [missed]]
      ensures infos == old(infos)[a := After(old(infos)[a], History[a], window, old(infos)[a].jailedUntil)]
    {
      ghost var ring := bits;
      var info := UpdateBits(a, infos[a], missed);
      ReplaySnoc(History[a], window, missed);
      TrackOne(infos, ring, History, window, a, info, bits, History[a] + [missed]);
      LogOther(infos, slashes, a, info, ForDowntime(a));
      CounterIsMisses(info, BitsAt(bits, a), History[a] + [missed], window);
      History := History[a := History[a] + [missed]];
      infos := infos[a := info];
    }

    // Slash, jail and start the window afresh.
    method PunishDowntime(a: Addr, jailEnd: int)
      requires Valid() && a in infos && a in validators
      modifies this
      ensures Valid() && History == old(History)[a := []] && slashes == old(slashes) + [ForDowntime(a)]
      ensures validators == old(validators)[a := old(validators)[a].(jailed := true)] && pubkeys == old(pubkeys)
      ensures infos == old(infos)[a := old(infos)[a].(jailedUntil := jailEnd, missed := 0, indexOffset := 0)]
    {
      LogOther(infos, slashes, a, infos[a], ForDowntime(a));
      slashes := slashes + [ForDowntime(a)];
      validators := validators[a := validators[a].(jailed := true)];
      var info := infos[a].(jailedUntil := jailEnd, missed := 0, indexOffset := 0);
      ghost var ring := bits;
      ClearBits(a);
      TrackOne(infos, ring, History, window, a, info, bits, []);
      LogOther(infos, slashes, a, info, ForDowntime(a));
      History := History[a := []];
      infos := infos[a := info];
    }

    // clearValidatorMissedBlockBitArray
    method ClearBits(a: Addr)
      modifies `bits
      ensures BitsAt(bits, a) == map[]
      ensures forall b :: b != a ==> BitsAt(bits, b) == BitsAt(old(bits), b)
    {
      while a in bits && bits[a] != map[]
        invariant forall b :: b != a ==> BitsAt(bits, b) == BitsAt(old(bits), b)
        decreases BitsAt(bits, a).Keys
      {
        var i :| i in bits[a];
        bits := bits[a := bits[a] - {i}];
      }
    }

    // handleValidatorSignature: a validator is slashed for downtime exactly when it missed too many of
    // the last blocks since its last reset.
    method HandleValidatorSignature(a: Addr, height: int, jailEnd: int, signed: bool) returns (r: Outcome, slashed: bool)
      requires Valid()
      modifies this
      ensures Valid()
      ensures r.Panicked? <==> a !in old(pubkeys) || a !in old(infos)
      ensures r.Panicked? ==> infos == old(infos) && History == old(History) && !slashed
      ensures !r.Panicked? ==>
        var h := old(History)[a] + [!signed];
        (slashed <==> height > old(infos)[a].startHeight + window && Count(Recent(h, window)) > maxMissed &&
                      a in old(validators) && !old(validators)[a].jailed) &&
        History == old(History)[a := if slashed then [] else h]
      ensures !r.Panicked? ==>
        infos == old(infos)[a := After(old(infos)[a], History[a], window, if slashed then jailEnd else old(infos)[a].jailedUntil)]
      ensures slashes == old(slashes) + if slashed then [ForDowntime(a)] else []
      ensures slashed ==> validators == old(validators)[a := old(validators)[a].(jailed := true)]
      ensures !slashed ==> validators == old(validators)
      ensures pubkeys == old(pubkeys)
    {
      r, slashed := Panicked, false;
      if a !in pubkeys || a !in infos { return; }
      RecordSignature(a, !signed);
      ghost var h, info := History[a], infos[a];
      r := Done;
      slashed := height > infos[a].startHeight + window && infos[a].missed > maxMissed &&
                 a in validators && !validators[a].jailed;
      if slashed {
        PunishDowntime(a, jailEnd);
        SetTwice(old(History), a, h, []);
        SetTwice(old(infos), a, info, infos[a]);
      }
    }

    // handleDoubleSign: tooOld evidence, that of an unbonded validator and that of a tombstoned one are ignored.
    method HandleDoubleSign(a: Addr, tooOld: bool, forever: int) returns (r: Outcome, slashed: bool)
      requires Valid()
      modifies `infos, `validators, `slashes
      ensures Valid()
      ensures slashed <==> a in pubkeys && !tooOld && a in old(validators) && !old(validators)[a].status.Unbonded? &&
                           a in old(infos) && !old(infos)[a].tombstoned
      ensures r.Panicked? <==> a in pubkeys && !tooOld && a in old(validators) && !old(validators)[a].status.Unbonded? &&
                               a !in old(infos)
      ensures slashed ==> slashes == old(slashes) + [ForDoubleSign(a)] &&
                          validators == old(validators)[a := old(validators)[a].(jailed := true)] &&
                          infos == old(infos)[a := old(infos)[a].(tombstoned := true, jailedUntil := forever)]
      ensures !slashed ==> infos == old(infos) && validators == old(validators) && slashes == old(slashes)
    {
      r, slashed := Done, false;
      if a !in pubkeys || tooOld { return; }
      if a !in validators || validators[a].status.Unbonded? { return; }
      if a !in infos { return Panicked, false; }
      var info := infos[a];
      if info.tombstoned { return; }
      info := info.(tombstoned := true, jailedUntil := forever);
      LogOther(infos, slashes, a, info, ForDoubleSign(a));
      TrackOne(infos, bits, History, window, a, info, bits, History[a]);
      assert History[a := History[a]] == History;
      slashes := slashes + [ForDoubleSign(a)];
      if !validators[a].jailed {
        validators := validators[a := validators[a].(jailed := true)];
      }
      infos := infos[a := info];
      slashed := true;
    }

    // handleMsgUnjail; selfDelegated: its self-delegation exists and is large enough.
    method HandleMsgUnjail(a: Addr, selfDelegated: bool, now: int) returns (r: Outcome)
      requires Valid()
      modifies `validators
      ensures Valid()
      ensures r.Done? <==> a in old(validators) && selfDelegated && old(validators)[a].jailed &&
                           a in infos && !infos[a].tombstoned && now >= infos[a].jailedUntil
      ensures validators == if r.Done? then old(validators)[a := old(validators)[a].(jailed := false)] else old(validators)
    {
      if a !in validators || !selfDelegated { return Failed; }
      if !validators[a].jailed { return Failed; }
      if a !in infos { return Failed; }
      if infos[a].tombstoned { return Failed; }
      if now < infos[a].jailedUntil { return Failed; }
      validators := validators[a := validators[a].(jailed := false)];
      return Done;
    }

    // AfterValidatorBonded
    method AfterValidatorBonded(a: Addr, height: int)
      requires Valid()
      modifies `infos, `History
      ensures Valid()
      ensures infos == if a in old(infos) then old(infos) else old(infos)[a := SigningInfo(height, 0, 0, false, 0)]
      ensures History == if a in old(infos) then old(History) else old(History)[a := []]
    {
      if a !in infos {
        var info := SigningInfo(height, 0, 0, false, 0);
        TrackOne(infos, bits, History, window, a, info, bits, []);
        LogOther(infos, slashes, a, info, ForDowntime(a));
        infos := infos[a := info];
        History := History[a := []];
      }
    }

    // What x/staking does on its own: create a validator or change its status.
    method SetValidator(a: Addr, v: Validator)
      requires Valid()
      modifies `validators, `pubkeys
      ensures Valid() && validators == old(validators)[a := v] && pubkeys == old(pubkeys) + {a}
    {
      validators := validators[a := v];
      pubkeys := pubkeys + {a};
    }
  }
}

// x/slashing/keys.go: where the bits of a validator are stored.
module SlashingKeys {
  import opened Bytes
  import opened Prefix

  const MISSED: Byte := 2

  // binary.LittleEndian in k bytes
  function LittleEndian(n: nat, k: nat): (s: Bytes)
    ensures |s| == k
  {
    if k == 0 then [] else [n % 256] + LittleEndian(n / 256, k - 1)
  }

  function Size(k: nat): nat {
    if k == 0 then 1 else 256 * Size(k - 1)
  }

  lemma {:induction false} LittleEndianInjective(n: nat, m: nat, k: nat)
    requires n < Size(k) && m < Size(k) && LittleEndian(n, k) == LittleEndian(m, k)
    ensures n == m
  {
    if k > 0 {
      var s, t := LittleEndian(n, k), LittleEndian(m, k);
      assert s[0] == n % 256 && t[0] == m % 256 && s[1..] == LittleEndian(n / 256, k - 1) && t[1..] == LittleEndian(m / 256, k - 1);
      LittleEndianInjective(n / 256, m / 256, k - 1);
    }
  }

  function MissedPrefix(a: Bytes): Bytes {
    [MISSED] + a
  }

  // GetValidatorMissedBlockBitArrayKey; the index is an int64, stored as a uint64.
  function MissedKey(a: Bytes, i: nat): Bytes {
    MissedPrefix(a) + LittleEndian(i, 8)
  }

  // Addresses have one length, so a store of bytes is a map from validators and indices.
  lemma MissedKeyInjective(a: Bytes, i: nat, b: Bytes, j: nat)
    requires |a| == |b| && i < 0x1_0000_0000_0000_0000 && j < 0x1_0000_0000_0000_0000 && MissedKey(a, i) == MissedKey(b, j)
    ensures a == b && i == j
  {
    var k, l := MissedKey(a, i), MissedKey(b, j);
    var n := 1 + |a|;
    assert k[1..n] == a && l[1..n] == b && k[n..] == LittleEndian(i, 8) && l[n..] == LittleEndian(j, 8);
    assert Size(8) == 0x1_0000_0000_0000_0000 by { assert Size(4) == 0x1_0000_0000; }
    LittleEndianInjective(i, j, 8);
  }

  // The prefix iterator that clears a validator's bits visits its keys and no other validator's.
  lemma MissedKeyRange(a: Bytes, b: Bytes, i: nat)
    requires |a| == |b|
    ensures InDomain(MissedKey(b, i), MissedPrefix(a), PrefixEnd(MissedPrefix(a))) <==> a == b
  {
    PrefixIsRange(MissedKey(b, i), MissedPrefix(a));
    assert MissedKey(b, i)[..1 + |b|] == MissedPrefix(b) && MissedPrefix(a)[1..] == a && MissedPrefix(b)[1..] == b;
  }

  // Nor any of the signing infos, slashing periods and public keys, which start with another byte.
  lemma OtherKeysOutside(a: Bytes, k: Bytes)
    requires k == [] || k[0] != MISSED
    ensures !InDomain(k, MissedPrefix(a), PrefixEnd(MissedPrefix(a)))
  {
    PrefixIsRange(k, MissedPrefix(a));
    assert MissedPrefix(a)[0] == MISSED;
  }
}
