// x/gov/keeper_keys.go and types/utils.go: the byte layout of the governance keys, and what its order
// means for the proposal queues.

module GovKeys {
  import opened Bytes
  import opened Prefix
  import opened Coins
  import opened Text

  // ---------- Fixed-width numbers ----------

  // Decimal digits in ASCII, or bytes in base 256.
  datatype Radix = Decimals | Binary

  function Low(n: nat, r: Radix): Byte {
    if r.Decimals? then 48 + n % 10 else n % 256
  }

  function High(n: nat, r: Radix): nat {
    if r.Decimals? then n / 10 else n / 256
  }

  // w digits, most significant first.
  function Fixed(n: nat, w: nat, r: Radix): (s: Bytes)
    ensures |s| == w
  {
    if w == 0 then [] else Fixed(High(n, r), w - 1, r) + [Low(n, r)]
  }

  function Power(r: Radix, w: nat): nat {
    if w == 0 then 1 else if r.Decimals? then 10 * Power(r, w - 1) else 256 * Power(r, w - 1)
  }

  // Comparing strings whose first parts have the same length.
  lemma {:induction false} LessConcat(x: Bytes, s: Bytes, y: Bytes, t: Bytes)
    requires |x| == |y|
    ensures Less(x + s, y + t) <==> Less(x, y) || (x == y && Less(s, t))
  {
    if x == [] {
      assert x + s == s && y + t == t;
    } else {
      LessConcat(x[1..], s, y[1..], t);
      assert (x + s)[1..] == x[1..] + s && (y + t)[1..] == y[1..] + t;
      assert x == [x[0]] + x[1..] && y == [y[0]] + y[1..];
      LessIrreflexive(x);
    }
  }

  lemma HighLowOrder(a: nat, b: nat, r: Radix)
    ensures a < b <==> High(a, r) < High(b, r) || (High(a, r) == High(b, r) && Low(a, r) < Low(b, r))
  {}

  // Byte order on fixed-width numbers is number order.
  lemma {:induction false} FixedOrder(a: nat, b: nat, w: nat, r: Radix)
    requires a < Power(r, w) && b < Power(r, w)
    ensures Less(Fixed(a, w, r), Fixed(b, w, r)) <==> a < b
    ensures Fixed(a, w, r) == Fixed(b, w, r) <==> a == b
  {
    if w > 0 {
      FixedOrder(High(a, r), High(b, r), w - 1, r);
      HighLowOrder(a, b, r);
      HighLowOrder(b, a, r);
      LastDigit(Fixed(High(a, r), w - 1, r), Low(a, r), Fixed(High(b, r), w - 1, r), Low(b, r));
    }
  }

  lemma LastDigit(x: Bytes, i: Byte, y: Bytes, j: Byte)
    requires |x| == |y|
    ensures Less(x + [i], y + [j]) <==> Less(x, y) || (x == y && i < j)
    ensures x + [i] == y + [j] <==> x == y && i == j
  {
    LessConcat(x, [i], y, [j]);
    assert (x + [i])[..|x|] == x && (y + [j])[..|y|] == y && (x + [i])[|x|] == i && (y + [j])[|y|] == j;
  }

  // ---------- Times ----------

  // "2006-01-02T15:04:05.000000000": year, month, day, hour, minute, second, nanosecond.
  const WIDTHS: seq<nat> := [4, 2, 2, 2, 2, 2, 9]
  const SEPARATORS: seq<Bytes> := [[45], [45], [84], [58], [58], [46], []]

  // A UTC time by its fields, up to the year 9999. The order of the fields is the order of time.
  type Time = t: seq<nat> | |t| == 7 && forall i :: 0 <= i < 7 ==> t[i] < Power(Decimals, WIDTHS[i])
    witness ZEROTIME

  const ZEROTIME: seq<nat> := [0, 0, 0, 0, 0, 0, 0]

  predicate EarlierFrom(t: Time, u: Time, i: nat)
    decreases 7 - i
  {
    i < 7 && (t[i] < u[i] || (t[i] == u[i] && EarlierFrom(t, u, i + 1)))
  }

  predicate Earlier(t: Time, u: Time) {
    EarlierFrom(t, u, 0)
  }

  function FormatFrom(t: Time, i: nat): (s: Bytes)
    requires i <= 7
    decreases 7 - i
  {
    if i == 7 then [] else Fixed(t[i], WIDTHS[i], Decimals) + (SEPARATORS[i] + FormatFrom(t, i + 1))
  }

  // FormatTimeBytes
  function FormatTime(t: Time): Bytes {
    FormatFrom(t, 0)
  }

  lemma {:induction false} FormatLength(t: Time, u: Time, i: nat)
    requires i <= 7
    ensures |FormatFrom(t, i)| == |FormatFrom(u, i)|
    decreases 7 - i
  {
    if i < 7 { FormatLength(t, u, i + 1); }
  }

  lemma {:induction false} FormatOrder(t: Time, u: Time, i: nat)
    requires i <= 7
    ensures Less(FormatFrom(t, i), FormatFrom(u, i)) <==> EarlierFrom(t, u, i)
    decreases 7 - i
  {
    if i < 7 {
      FormatOrder(t, u, i + 1);
      FixedOrder(t[i], u[i], WIDTHS[i], Decimals);
      LessPrepend(SEPARATORS[i], FormatFrom(t, i + 1), FormatFrom(u, i + 1));
      LessConcat(Fixed(t[i], WIDTHS[i], Decimals), SEPARATORS[i] + FormatFrom(t, i + 1),
                 Fixed(u[i], WIDTHS[i], Decimals), SEPARATORS[i] + FormatFrom(u, i + 1));
    }
  }

  lemma {:induction false} SameTime(t: Time, u: Time, i: nat)
    requires i <= 7 && !EarlierFrom(t, u, i) && !EarlierFrom(u, t, i)
    ensures t[i..] == u[i..]
    decreases 7 - i
  {
    if i < 7 {
      SameTime(t, u, i + 1);
      assert t[i..] == [t[i]] + t[i + 1..] && u[i..] == [u[i]] + u[i + 1..];
    }
  }

  // ---------- Queue keys ----------

  type ID = n: nat | n < 0x1_0000_0000_0000_0000

  const COLON: Byte := 58
  const ACTIVE: Bytes := [97, 99, 116, 105, 118, 101, 80, 114, 111, 112, 111, 115, 97, 108, 81, 117, 101, 117, 101]
  const INACTIVE: Bytes := [105, 110] + ACTIVE

  // Uint64ToBigEndian
  function BigEndian(id: ID): Bytes {
    Fixed(id, 8, Binary)
  }

  function QueuePrefix(queue: Bytes, end: Time): Bytes {
    queue + [COLON] + FormatTime(end)
  }

  function QueueKey(queue: Bytes, end: Time, id: ID): Bytes {
    queue + [COLON] + FormatTime(end) + [COLON] + BigEndian(id)
  }

  // Where the iterator of ActiveProposalQueueIterator and InactiveProposalQueueIterator runs.
  predicate InQueueRange(queue: Bytes, now: Time, k: Bytes) {
    InDomain(k, queue, PrefixEnd(QueuePrefix(queue, now)))
  }

  lemma PrefixEndAbove(p: Bytes, k: Bytes)
    requires Less(k, p)
    ensures PrefixEnd(p).Some? ==> Less(k, PrefixEnd(p).value)
  {
    PrefixIsRange(p, p);
    if PrefixEnd(p).Some? { LessTransitive(k, p, PrefixEnd(p).value); }
  }

  // Below the end of a prefix: below the prefix or starting with it.
  lemma BelowPrefixEnd(p: Bytes, k: Bytes)
    ensures (PrefixEnd(p).Some? ==> Less(k, PrefixEnd(p).value)) <==> Less(k, p) || HasPrefix(k, p)
  {
    PrefixIsRange(k, p);
    LessTotal(k, p);
    if Less(k, p) { PrefixEndAbove(p, k); }
  }

  lemma {:induction false} PrefixAtMost(p: Bytes, s: Bytes)
    ensures AtMost(p, p + s)
  {
    if p == [] {
      assert p + s == s;
    } else {
      PrefixAtMost(p[1..], s);
      assert (p + s)[1..] == p[1..] + s;
      assert p == [p[0]] + p[1..] && p + s == [p[0]] + (p[1..] + s);
    }
  }

  lemma BelowPrefix(head: Bytes, e: Bytes, n: Bytes, tail: Bytes)
    requires |e| == |n|
    ensures Less(head + (e + tail), head + n) <==> Less(e, n)
    ensures HasPrefix(head + (e + tail), head + n) <==> e == n
  {
    LessPrepend(head, e + tail, n);
    assert n + [] == n;
    LessConcat(e, tail, n, []);
    var k, p := head + (e + tail), head + n;
    assert k[..|p|] == head + e;
    assert (head + e)[|head|..] == e && p[|head|..] == n;
  }

  lemma StringRange(queue: Bytes, e: Bytes, n: Bytes, b: Bytes)
    requires |e| == |n|
    ensures InDomain(queue + [COLON] + e + [COLON] + b, queue, PrefixEnd(queue + [COLON] + n)) <==> Less(e, n) || e == n
  {
    var head, tail := queue + [COLON], [COLON] + b;
    var k := queue + [COLON] + e + [COLON] + b;
    assert k == queue + ([COLON] + (e + tail));
    PrefixAtMost(queue, [COLON] + (e + tail));
    BelowPrefixEnd(head + n, k);
    assert k == head + (e + tail);
    BelowPrefix(head, e, n, tail);
  }

  // The range holds the keys of exactly the proposals whose end time is not after now.
  lemma QueueRange(queue: Bytes, end: Time, id: ID, now: Time)
    ensures InQueueRange(queue, now, QueueKey(queue, end, id)) <==> !Earlier(now, end)
  {
    FormatLength(end, now, 0);
    StringRange(queue, FormatTime(end), FormatTime(now), BigEndian(id));
    FormatOrder(end, now, 0);
    SameFormat(end, now);
  }

  lemma SameFormat(t: Time, u: Time)
    ensures FormatTime(t) == FormatTime(u) <==> !Earlier(t, u) && !Earlier(u, t)
    ensures FormatTime(t) == FormatTime(u) ==> t == u
    ensures !(Earlier(t, u) && Earlier(u, t))
  {
    FormatOrder(t, u, 0);
    FormatOrder(u, t, 0);
    LessIrreflexive(FormatTime(t));
    LessTotal(FormatTime(t), FormatTime(u));
    if Less(FormatTime(t), FormatTime(u)) { LessAsymmetric(FormatTime(t), FormatTime(u)); }
    if !Earlier(t, u) && !Earlier(u, t) {
      SameTime(t, u, 0);
      assert t[0..] == t && u[0..] == u;
    }
  }

  lemma SplitKey(queue: Bytes, e: Bytes, b: Bytes, e': Bytes, b': Bytes)
    requires |e| == |e'| && queue + [COLON] + e + [COLON] + b == queue + [COLON] + e' + [COLON] + b'
    ensures e == e' && b == b'
  {
    var k, k', h := queue + [COLON] + e + [COLON] + b, queue + [COLON] + e' + [COLON] + b', |queue| + 1;
    assert k[h..h + |e|] == e && k'[h..h + |e|] == e';
    assert k[h + |e| + 1..] == b && k'[h + |e| + 1..] == b';
  }

  lemma QueueKeyInjective(queue: Bytes, end: Time, id: ID, end': Time, id': ID)
    requires QueueKey(queue, end, id) == QueueKey(queue, end', id')
    ensures end == end' && id == id'
  {
    FormatLength(end, end', 0);
    SplitKey(queue, FormatTime(end), BigEndian(id), FormatTime(end'), BigEndian(id'));
    SameFormat(end, end');
    SameID(id, id');
  }

  lemma SameID(id: ID, id': ID)
    requires BigEndian(id) == BigEndian(id')
    ensures id == id'
  {
    assert Power(Binary, 8) == 0x1_0000_0000_0000_0000 by { assert Power(Binary, 4) == 0x1_0000_0000; }
    FixedOrder(id, id', 8, Binary);
  }

  // Keys that start with another byte are in neither range: the other queue's, the proposals', the
  // deposits' and the votes'.
  lemma OtherKeysOutside(queue: Bytes, now: Time, k: Bytes)
    requires queue != [] && (k == [] || k[0] != queue[0])
    ensures !InQueueRange(queue, now, k)
  {
    var p := QueuePrefix(queue, now);
    assert p[0] == queue[0];
    BelowPrefixEnd(p, k);
  }

  // ---------- Deposit and vote keys ----------

  // An address under %d is printed by its own Format, in upper-case hexadecimal.
  function Nibble(n: nat): Byte
    requires n < 16
  {
    if n < 10 then 48 + n else 55 + n
  }

  function Hex(a: Bytes): (s: Bytes)
    ensures |s| == 2 * |a|
  {
    if a == [] then [] else [Nibble(a[0] / 16), Nibble(a[0] % 16)] + Hex(a[1..])
  }

  // kind is "deposits:" or "votes:".
  function Subspace(kind: Bytes, id: ID): Bytes {
    kind + (Digits(id) + [COLON])
  }

  // KeyDeposit and KeyVote
  function RecordKey(kind: Bytes, id: ID, a: Bytes): Bytes {
    Subspace(kind, id) + Hex(a)
  }

  lemma SameDigits(m: nat, n: nat, s: Bytes, t: Bytes)
    requires s != [] && t != [] && !IsDigit(s[0]) && !IsDigit(t[0]) && Digits(m) + s == Digits(n) + t
    ensures m == n && s == t
  {
    DigitsValue(m);
    DigitsValue(n);
    DigitsStop(Digits(m), s);
    DigitsStop(Digits(n), t);
    assert (Digits(m) + s)[..|Digits(m)|] == Digits(m) && (Digits(n) + t)[..|Digits(n)|] == Digits(n);
    assert (Digits(m) + s)[|Digits(m)|..] == s && (Digits(n) + t)[|Digits(n)|..] == t;
  }

  // A proposal's subspace holds its own records and no other proposal's.
  lemma SubspaceIsOwn(kind: Bytes, id: ID, a: Bytes, id': ID)
    ensures HasPrefix(RecordKey(kind, id, a), Subspace(kind, id')) <==> id == id'
  {
    var k, p := RecordKey(kind, id, a), Subspace(kind, id');
    if id == id' {
      assert k[..|p|] == p;
    } else if HasPrefix(k, p) {
      var s := [COLON] + Hex(a);
      var t := [COLON] + k[|p|..];
      SameStart(kind, Digits(id), [COLON], Hex(a));
      SameStart(kind, Digits(id'), [COLON], k[|p|..]);
      assert k == p + k[|p|..];
      SameDigits(id, id', s, t);
    }
  }

  lemma SameStart(kind: Bytes, x: Bytes, y: Bytes, z: Bytes)
    ensures (kind + (x + y) + z)[|kind|..] == x + (y + z)
  {}

  lemma {:induction false} HexInjective(a: Bytes, b: Bytes)
    requires Hex(a) == Hex(b)
    ensures a == b
  {
    if a != [] && b != [] {
      var s := Hex(a);
      assert s[0] == Nibble(b[0] / 16) && s[1] == Nibble(b[0] % 16);
      assert s[2..] == Hex(a[1..]) && s[2..] == Hex(b[1..]);
      HexInjective(a[1..], b[1..]);
      assert a == [a[0]] + a[1..] && b == [b[0]] + b[1..];
    }
  }

  lemma RecordKeyInjective(kind: Bytes, id: ID, a: Bytes, id': ID, a': Bytes)
    requires RecordKey(kind, id, a) == RecordKey(kind, id', a')
    ensures id == id' && a == a'
  {
    var k, p := RecordKey(kind, id, a), Subspace(kind, id);
    SubspaceIsOwn(kind, id', a', id);
    assert k[..|p|] == p;
    assert k[|p|..] == Hex(a) && k[|p|..] == Hex(a');
    HexInjective(a, a');
  }
}
