// types/decimal.go, types/coin.go, types/int.go: printing and parsing decimals and coins.

module Text {
  import opened Bytes
  import opened Decimal
  import opened Coins

  const ZERO: Byte := 48
  const DOT: Byte := 46
  const MINUS: Byte := 45
  const PLUS: Byte := 43
  const COMMA: Byte := 44
  const PRECISION := 18

  // ---------- Numerals ----------

  // big.Int.MarshalText of a natural number.
  function Digits(n: nat): (s: Bytes)
    ensures |s| > 0
  {
    if n < 10 then [ZERO + n] else Digits(n / 10) + [ZERO + n % 10]
  }

  predicate AllDigits(s: Bytes) {
    forall i :: 0 <= i < |s| ==> IsDigit(s[i])
  }

  function Value(s: Bytes, base: nat): nat
    requires AllDigits(s)
  {
    if s == [] then 0 else Value(s[..|s| - 1], base) * base + (s[|s| - 1] - ZERO)
  }

  lemma {:induction false} DigitsValue(n: nat)
    ensures AllDigits(Digits(n)) && Value(Digits(n), 10) == n
    ensures n > 0 ==> Digits(n)[0] != ZERO
  {
    if n < 10 {
      assert Digits(n)[..0] == [];
    } else {
      DigitsValue(n / 10);
      assert Digits(n)[..|Digits(n)| - 1] == Digits(n / 10);
    }
  }

  function Zeros(n: nat): (s: Bytes)
    ensures |s| == n && forall i :: 0 <= i < n ==> s[i] == ZERO
  {
    seq(n, i => ZERO)
  }

  lemma {:induction false} LeadingZeros(z: nat, s: Bytes)
    requires AllDigits(s)
    ensures AllDigits(Zeros(z) + s) && Value(Zeros(z) + s, 10) == Value(s, 10)
    decreases z + |s|
  {
    if s != [] {
      LeadingZeros(z, s[..|s| - 1]);
      assert (Zeros(z) + s)[..z + |s| - 1] == Zeros(z) + s[..|s| - 1];
    } else if z > 0 {
      LeadingZeros(z - 1, s);
      assert (Zeros(z) + s)[..z - 1] == Zeros(z - 1) + s;
    }
  }

  function Pow10(n: nat): nat {
    if n == 0 then 1 else 10 * Pow10(n - 1)
  }

  lemma {:induction false} ValueConcat(s: Bytes, t: Bytes)
    requires AllDigits(s) && AllDigits(t)
    ensures AllDigits(s + t) && Value(s + t, 10) == Value(s, 10) * Pow10(|t|) + Value(t, 10)
  {
    if t == [] {
      assert s + t == s;
    } else {
      ValueConcat(s, t[..|t| - 1]);
      assert (s + t)[..|s| + |t| - 1] == s + t[..|t| - 1];
      OneMoreDigit(Value(s, 10), Pow10(|t| - 1), Value(t[..|t| - 1], 10), t[|t| - 1] - ZERO);
    }
  }

  lemma OneMoreDigit(v: int, p: int, w: int, d: int)
    ensures (v * p + w) * 10 + d == v * (10 * p) + (w * 10 + d)
  {
    assert v * (10 * p) == 10 * (v * p);
  }

  lemma {:induction false} ZerosValue(n: nat)
    ensures AllDigits(Zeros(n)) && Value(Zeros(n), 10) == 0
  {
    LeadingZeros(n, []);
    assert Zeros(n) + [] == Zeros(n);
  }

  // big.Int.SetString in base 10: an optional sign, then digits.
  function SetString(s: Bytes): Option<int> {
    if s != [] && (s[0] == MINUS || s[0] == PLUS) then
      if |s| == 1 || !AllDigits(s[1..]) then None
      else
        var v: int := Value(s[1..], 10);
        Some(if s[0] == MINUS then -v else v)
    else if s == [] || !AllDigits(s) then None
    else Some(Value(s, 10))
  }

  // ---------- strings.Split ----------

  function Split(s: Bytes, c: Byte): (r: seq<Bytes>)
    ensures |r| > 0
  {
    if s == [] then [[]]
    else
      var r := Split(s[1..], c);
      if s[0] == c then [[]] + r else [[s[0]] + r[0]] + r[1..]
  }

  predicate Without(s: Bytes, c: Byte) {
    forall i :: 0 <= i < |s| ==> s[i] != c
  }

  lemma {:induction false} SplitNone(s: Bytes, c: Byte)
    requires Without(s, c)
    ensures Split(s, c) == [s]
  {
    if s != [] {
      SplitNone(s[1..], c);
      assert [s[0]] + s[1..] == s;
    }
  }

  lemma {:induction false} SplitFirst(s: Bytes, c: Byte, t: Bytes)
    requires Without(s, c)
    ensures Split(s + [c] + t, c) == [s] + Split(t, c)
  {
    var all := s + [c] + t;
    if s == [] {
      assert all[1..] == t;
    } else {
      SplitFirst(s[1..], c, t);
      assert all[1..] == s[1..] + [c] + t;
      assert [s[0]] + s[1..] == s;
    }
  }

  // ---------- Decimals ----------

  function DecString(d: Dec): Bytes {
    if d < 0 then [MINUS] + Unsigned(-d) else Unsigned(d)
  }

  function Unsigned(n: nat): Bytes {
    var bz := Digits(n);
    if |bz| <= PRECISION then [ZERO, DOT] + Zeros(PRECISION - |bz|) + bz
    else bz[..|bz| - PRECISION] + [DOT] + bz[|bz| - PRECISION..]
  }

  // None is an error.
  function NewDecFromStr(str: Bytes): Option<Dec> {
    if str == [] then None
    else if str[0] == MINUS then
      match FromUnsigned(str[1..]) case None => None case Some(d) => Some(-d)
    else FromUnsigned(str)
  }

  function FromUnsigned(str: Bytes): Option<Dec> {
    if str == [] then None
    else
      var strs := Split(str, DOT);
      if |strs| > 2 then None
      else if |strs| == 2 && (strs[1] == [] || strs[0] == []) then None
      else
        FromParts(strs[0], if |strs| == 2 then strs[1] else [])
  }

  function FromParts(whole: Bytes, decs: Bytes): Option<Dec> {
    if |decs| > PRECISION then None else SetString(whole + decs + Zeros(PRECISION - |decs|))
  }

  lemma PartsValue(w: Bytes, f: Bytes)
    requires AllDigits(w) && AllDigits(f) && w != [] && |f| <= PRECISION
    ensures FromParts(w, f) == Some(Value(w + f, 10) * Pow10(PRECISION - |f|))
  {
    var zeros := Zeros(PRECISION - |f|);
    ZerosValue(PRECISION - |f|);
    ValueConcat(w + f, zeros);
    assert (w + f + zeros)[0] == w[0];
  }

  lemma PartsOf(w: Bytes, f: Bytes)
    requires AllDigits(w) && AllDigits(f) && w != [] && f != []
    ensures FromUnsigned(w + [DOT] + f) == FromParts(w, f)
  {
    SplitFirst(w, DOT, f);
    SplitNone(f, DOT);
    assert Split(w + [DOT] + f, DOT) == [w, f];
  }

  // A numeral with a point denotes the decimal fraction it spells.
  lemma ParseFraction(w: Bytes, f: Bytes)
    requires AllDigits(w) && AllDigits(f) && w != [] && 0 < |f| <= PRECISION
    ensures FromUnsigned(w + [DOT] + f) == Some(Value(w + f, 10) * Pow10(PRECISION - |f|))
  {
    PartsOf(w, f);
    PartsValue(w, f);
  }

  lemma ParseWhole(w: Bytes)
    requires AllDigits(w) && w != []
    ensures FromUnsigned(w) == Some(Value(w, 10) * UNIT)
  {
    SplitNone(w, DOT);
    PartsValue(w, []);
    assert w + [] == w;
    Pow10Precision();
  }

  lemma Pow10Precision()
    ensures Pow10(PRECISION) == UNIT
  {
    assert Pow10(6) == 1000000;
    assert Pow10(12) == 1000000 * Pow10(6);
  }

  lemma ParseFull(w: Bytes, f: Bytes, n: nat)
    requires AllDigits(w) && AllDigits(f) && w != [] && |f| == PRECISION && Value(w + f, 10) == n
    ensures FromUnsigned(w + [DOT] + f) == Some(n)
  {
    PartsOf(w, f);
    assert w + f + Zeros(0) == w + f;
    assert (w + f)[0] == w[0];
  }

  lemma Padded(bz: Bytes, z: nat)
    requires AllDigits(bz)
    ensures AllDigits(Zeros(z) + bz) && Value([ZERO] + (Zeros(z) + bz), 10) == Value(bz, 10)
  {
    LeadingZeros(z + 1, bz);
    assert [ZERO] + (Zeros(z) + bz) == Zeros(z + 1) + bz;
  }

  lemma SmallRoundTrip(zeros: Bytes, bz: Bytes, n: nat)
    requires AllDigits(zeros + bz) && |zeros + bz| == PRECISION && Value([ZERO] + (zeros + bz), 10) == n
    ensures FromUnsigned([ZERO, DOT] + zeros + bz) == Some(n)
  {
    ParseFull([ZERO], zeros + bz, n);
    assert [ZERO, DOT] + zeros + bz == [ZERO] + [DOT] + (zeros + bz);
  }

  lemma LargeRoundTrip(bz: Bytes, k: nat, n: nat)
    requires AllDigits(bz) && 0 < k && |bz| == k + PRECISION && Value(bz, 10) == n
    ensures FromUnsigned(bz[..k] + [DOT] + bz[k..]) == Some(n)
  {
    assert bz[..k] + bz[k..] == bz;
    ParseFull(bz[..k], bz[k..], n);
  }

  lemma UnsignedRoundTrip(n: nat)
    ensures FromUnsigned(Unsigned(n)) == Some(n)
    ensures Unsigned(n) != [] && Unsigned(n)[0] != MINUS
  {
    var bz := Digits(n);
    DigitsValue(n);
    if |bz| <= PRECISION {
      Padded(bz, PRECISION - |bz|);
      SmallRoundTrip(Zeros(PRECISION - |bz|), bz, n);
    } else {
      LargeRoundTrip(bz, |bz| - PRECISION, n);
    }
  }

  // Printing and parsing a decimal gives it back.
  lemma DecRoundTrip(d: Dec)
    ensures NewDecFromStr(DecString(d)) == Some(d)
  {
    if d < 0 {
      UnsignedRoundTrip(-d);
      SignedParse(Unsigned(-d), -d);
    } else {
      UnsignedRoundTrip(d);
      SignedParse(Unsigned(d), d);
    }
  }

  lemma SignedParse(s: Bytes, n: Dec)
    requires s != [] && s[0] != MINUS && FromUnsigned(s) == Some(n)
    ensures NewDecFromStr(s) == Some(n) && NewDecFromStr([MINUS] + s) == Some(-n)
  {
    assert ([MINUS] + s)[1..] == s;
  }

  // Dec.String fills a byte buffer.
  method String(d: Dec) returns (s: Bytes)
    ensures s == DecString(d)
  {
    if d < 0 {
      s := FillUnsigned(-d);
      s := [MINUS] + s;
    } else {
      s := FillUnsigned(d);
    }
  }

  method FillUnsigned(n: nat) returns (s: Bytes)
    ensures s == Unsigned(n)
  {
    var bzInt := Digits(n);
    if |bzInt| <= PRECISION {
      s := FillDecimal(bzInt);
    } else {
      s := FillPoint(bzInt);
    }
  }

  method FillDecimal(bzInt: Bytes) returns (s: Bytes)
    requires |bzInt| <= PRECISION
    ensures s == [ZERO, DOT] + Zeros(PRECISION - |bzInt|) + bzInt
  {
    var bzStr := new Byte[PRECISION + 2];
    var zeros := PRECISION - |bzInt|;
    bzStr[0], bzStr[1] := ZERO, DOT;
    for i := 0 to zeros
      invariant bzStr[..i + 2] == [ZERO, DOT] + Zeros(i)
    {
      bzStr[i + 2] := ZERO;
    }
    Copy(bzStr, 2 + zeros, bzInt);
    s := bzStr[..];
    assert s == s[..2 + zeros] + s[2 + zeros..];
  }

  method FillPoint(bzInt: Bytes) returns (s: Bytes)
    requires |bzInt| > PRECISION
    ensures s == bzInt[..|bzInt| - PRECISION] + [DOT] + bzInt[|bzInt| - PRECISION..]
  {
    var bzStr := new Byte[|bzInt| + 1];
    var decPointPlace := |bzInt| - PRECISION;
    Copy(bzStr, 0, bzInt[..decPointPlace]);
    bzStr[decPointPlace] := DOT;
    assert bzStr[..decPointPlace + 1] == bzInt[..decPointPlace] + [DOT];
    Copy(bzStr, decPointPlace + 1, bzInt[decPointPlace..]);
    s := bzStr[..];
    assert s == s[..decPointPlace + 1] + s[decPointPlace + 1..];
  }

  method Copy(dst: array<Byte>, at: nat, src: Bytes)
    requires at + |src| <= dst.Length
    modifies dst
    ensures dst[..at] == old(dst[..at]) && dst[at..at + |src|] == src
    ensures dst[at + |src|..] == old(dst[at + |src|..])
  {
    for i := 0 to |src|
      invariant dst[..at] == old(dst[..at]) && dst[at..at + i] == src[..i]
      invariant dst[at + |src|..] == old(dst[at + |src|..])
    {
      dst[at + i] := src[i];
    }
  }

  // ---------- Coins ----------

  // Ints have at most 255 bits.
  const LIMIT: nat := 0x8000_0000_0000_0000_0000_0000_0000_0000_0000_0000_0000_0000_0000_0000_0000_0000

  predicate IsSpace(b: Byte) { 9 <= b <= 13 || b == 32 }

  function TrimLeft(s: Bytes): Bytes {
    if s != [] && IsSpace(s[0]) then TrimLeft(s[1..]) else s
  }

  function TrimRight(s: Bytes): Bytes {
    if s != [] && IsSpace(s[|s| - 1]) then TrimRight(s[..|s| - 1]) else s
  }

  function TrimSpace(s: Bytes): Bytes {
    TrimRight(TrimLeft(s))
  }

  // Int.String
  function IntString(i: int): Bytes {
    if i < 0 then [MINUS] + Digits(-i) else Digits(i)
  }

  predicate Octal(s: Bytes) {
    forall i :: 0 <= i < |s| ==> s[i] < 56
  }

  // NewIntFromString on a string of digits: base 0 reads a leading zero as octal.
  function NewIntFromString(s: Bytes): Option<int>
    requires AllDigits(s) && s != []
  {
    var v: int := if s[0] == ZERO then Value(s[1..], 8) else Value(s, 10);
    if s[0] == ZERO && !Octal(s) then None
    else if v >= LIMIT then None
    else Some(v)
  }

  function CoinString(c: Coin): Bytes {
    IntString(c.amount) + c.denom
  }

  // The length of the longest prefix of digits.
  function DigitsAhead(s: Bytes): (n: nat)
    ensures n <= |s| && AllDigits(s[..n])
  {
    if s != [] && IsDigit(s[0]) then
      var n := DigitsAhead(s[1..]);
      assert s[..n + 1] == [s[0]] + s[1..][..n];
      n + 1
    else 0
  }

  // The regular expression is digits, then spaces, then a denomination, which starts with a letter: the
  // digits it matches are all there are. None is an error.
  function ParseCoin(str: Bytes): Option<Coin> {
    var s := TrimSpace(str);
    var n := DigitsAhead(s);
    var denom := TrimLeft(s[n..]);
    if n == 0 || !ValidDenom(denom) then None
    else match NewIntFromString(s[..n]) case None => None case Some(amount) => Some(Coin(denom, amount))
  }

  // sort.Sort by denomination. Equal denominations may come out in any order, and are refused later.
  function InsertCoin(c: Coin, cs: Coins): (r: Coins)
    ensures |r| == |cs| + 1
  {
    if cs == [] || !Less(cs[0].denom, c.denom) then [c] + cs else [cs[0]] + InsertCoin(c, cs[1..])
  }

  function SortCoins(cs: Coins): (r: Coins)
    ensures |r| == |cs|
  {
    if cs == [] then [] else InsertCoin(cs[0], SortCoins(cs[1..]))
  }

  function ParseAll(strs: seq<Bytes>): Option<Coins> {
    if strs == [] then Some([])
    else
      match ParseAll(strs[..|strs| - 1])
      case None => None
      case Some(cs) => match ParseCoin(strs[|strs| - 1]) case None => None case Some(c) => Some(cs + [c])
  }

  function ParsedCoins(str: Bytes): Option<Coins> {
    var s := TrimSpace(str);
    if s == [] then Some([])
    else
      match ParseAll(Split(s, COMMA))
      case None => None
      case Some(cs) => if IsValid(SortCoins(cs)) then Some(SortCoins(cs)) else None
  }

  lemma {:induction false} ParseStops(strs: seq<Bytes>, n: nat)
    requires n <= |strs| && ParseAll(strs[..n]).None?
    ensures ParseAll(strs).None?
    decreases |strs| - n
  {
    if n < |strs| {
      assert strs[..n + 1][..n] == strs[..n];
      ParseStops(strs, n + 1);
    } else {
      assert strs[..n] == strs;
    }
  }

  method ParseCoins(coinsStr: Bytes) returns (r: Option<Coins>)
    ensures r == ParsedCoins(coinsStr)
  {
    var s := TrimSpace(coinsStr);
    if s == [] { return Some([]); }
    var coinStrs := Split(s, COMMA);
    var coins: Coins := [];
    for i := 0 to |coinStrs|
      invariant ParseAll(coinStrs[..i]) == Some(coins)
    {
      assert coinStrs[..i + 1][..i] == coinStrs[..i];
      var c := ParseCoin(coinStrs[i]);
      if c.None? {
        ParseStops(coinStrs, i + 1);
        return None;
      }
      coins := coins + [c.value];
    }
    assert coinStrs[..|coinStrs|] == coinStrs;
    coins := SortCoins(coins);
    if !IsValid(coins) { return None; }
    return Some(coins);
  }

  function CoinStrings(cs: Coins): seq<Bytes> {
    if cs == [] then [] else [CoinString(cs[0])] + CoinStrings(cs[1..])
  }

  function Joined(cs: Coins): Bytes {
    if cs == [] then []
    else if |cs| == 1 then CoinString(cs[0])
    else CoinString(cs[0]) + [COMMA] + Joined(cs[1..])
  }

  // Coins.String writes a comma after each coin and cuts the last.
  method CoinsToString(coins: Coins) returns (s: Bytes)
    ensures s == Joined(coins)
  {
    if |coins| == 0 { return []; }
    var out: Bytes := [];
    for i := 0 to |coins|
      invariant i < |coins| ==> out + Joined(coins[i..]) + [COMMA] == Joined(coins) + [COMMA]
      invariant i == |coins| ==> out == Joined(coins) + [COMMA]
    {
      JoinedStep(out, coins, i);
      out := out + (CoinString(coins[i]) + [COMMA]);
    }
    s := out[..|out| - 1];
  }

  lemma JoinedStep(out: Bytes, coins: Coins, i: nat)
    requires i < |coins|
    ensures var next := out + (CoinString(coins[i]) + [COMMA]);
            out + Joined(coins[i..]) + [COMMA] == if i + 1 < |coins| then next + Joined(coins[i + 1..]) + [COMMA] else next
  {
    var s, rest := CoinString(coins[i]), coins[i + 1..];
    assert coins[i..][0] == coins[i] && coins[i..][1..] == rest;
    if rest == [] {
      Regrouped(out, s, [COMMA], [], []);
    } else {
      Regrouped(out, s, [COMMA], Joined(rest), [COMMA]);
    }
  }

  lemma Regrouped(a: Bytes, b: Bytes, c: Bytes, d: Bytes, e: Bytes)
    ensures a + (b + c + d) + e == a + (b + c) + d + e && a + b + c == a + (b + c)
  {
    assert a + (b + c + d) == a + (b + c) + d;
  }

  predicate Printable(c: Coin) {
    0 < c.amount < LIMIT && ValidDenom(c.denom)
  }

  lemma NoTrim(s: Bytes)
    requires s != [] && !IsSpace(s[0]) && !IsSpace(s[|s| - 1])
    ensures TrimSpace(s) == s
  {}

  lemma {:induction false} DigitsStop(s: Bytes, t: Bytes)
    requires AllDigits(s) && t != [] && !IsDigit(t[0])
    ensures DigitsAhead(s + t) == |s|
  {
    if s == [] {
      assert s + t == t;
    } else {
      DigitsStop(s[1..], t);
      assert (s + t)[1..] == s[1..] + t;
    }
  }

  lemma ParseShape(ds: Bytes, denom: Bytes)
    requires AllDigits(ds) && ds != [] && ValidDenom(denom)
    ensures ParseCoin(ds + denom) ==
            match NewIntFromString(ds) case None => None case Some(amount) => Some(Coin(denom, amount))
  {
    var s := ds + denom;
    NoTrim(s);
    DigitsStop(ds, denom);
    assert s[..|ds|] == ds && s[|ds|..] == denom;
  }

  lemma CoinRoundTrip(c: Coin)
    requires Printable(c)
    ensures ParseCoin(CoinString(c)) == Some(c)
  {
    DigitsValue(c.amount);
    ParseShape(Digits(c.amount), c.denom);
  }

  lemma CoinStringShape(c: Coin)
    requires Printable(c)
    ensures var s := CoinString(c); s != [] && Without(s, COMMA) && !IsSpace(s[0]) && !IsSpace(s[|s| - 1])
  {
    DigitsValue(c.amount);
  }

  lemma {:induction false} SplitJoined(cs: Coins)
    requires cs != [] && forall i :: 0 <= i < |cs| ==> Printable(cs[i])
    ensures Split(Joined(cs), COMMA) == CoinStrings(cs)
    ensures var s := Joined(cs); s != [] && !IsSpace(s[0]) && !IsSpace(s[|s| - 1])
  {
    CoinStringShape(cs[0]);
    var s, rest := CoinString(cs[0]), cs[1..];
    if rest == [] {
      SplitNone(s, COMMA);
    } else {
      SplitJoined(rest);
      SplitFirst(s, COMMA, Joined(rest));
      JoinedEnds(s, Joined(rest));
    }
  }

  lemma JoinedEnds(s: Bytes, t: Bytes)
    requires s != [] && t != []
    ensures var all := s + [COMMA] + t; all != [] && all[0] == s[0] && all[|all| - 1] == t[|t| - 1]
  {}

  lemma {:induction false} ParseEach(strs: seq<Bytes>, cs: Coins)
    requires |strs| == |cs| && forall i :: 0 <= i < |cs| ==> ParseCoin(strs[i]) == Some(cs[i])
    ensures ParseAll(strs) == Some(cs)
  {
    if cs != [] {
      ParseEach(strs[..|strs| - 1], cs[..|cs| - 1]);
      assert cs == cs[..|cs| - 1] + [cs[|cs| - 1]];
    }
  }

  lemma {:induction false} StringAt(cs: Coins, i: nat)
    requires i < |cs|
    ensures |CoinStrings(cs)| == |cs| && CoinStrings(cs)[i] == CoinString(cs[i])
  {
    if i > 0 {
      StringAt(cs[1..], i - 1);
    } else if |cs| > 1 {
      StringAt(cs[1..], 0);
    }
  }

  lemma ParseStrings(cs: Coins)
    requires cs != [] && forall i :: 0 <= i < |cs| ==> Printable(cs[i])
    ensures ParseAll(CoinStrings(cs)) == Some(cs)
  {
    var strs := CoinStrings(cs);
    StringAt(cs, 0);
    forall i | 0 <= i < |cs| ensures ParseCoin(strs[i]) == Some(cs[i]) {
      StringAt(cs, i);
      CoinRoundTrip(cs[i]);
    }
    ParseEach(strs, cs);
  }

  lemma {:induction false} SortedStays(cs: Coins)
    requires Sorted(cs)
    ensures SortCoins(cs) == cs
  {
    if cs != [] {
      SortedStays(cs[1..]);
      if |cs| > 1 { LessAsymmetric(cs[0].denom, cs[1].denom); }
      assert [cs[0]] + cs[1..] == cs;
    }
  }

  lemma PrintableIsValid(cs: Coins)
    requires Sorted(cs) && forall i :: 0 <= i < |cs| ==> Printable(cs[i])
    ensures IsValid(cs)
  {
    IsValidMeans(cs);
  }

  // Printing and parsing a list of coins gives it back.
  lemma CoinsRoundTrip(cs: Coins)
    requires Sorted(cs) && forall i :: 0 <= i < |cs| ==> Printable(cs[i])
    ensures ParsedCoins(Joined(cs)) == Some(cs)
  {
    if cs != [] {
      SplitJoined(cs);
      NoTrim(Joined(cs));
      ParseStrings(cs);
      SortedStays(cs);
      PrintableIsValid(cs);
    }
  }

  // A leading zero changes the number: "010abc" is eight of abc.
  lemma LeadingZeroIsOctal(o: Bytes, denom: Bytes)
    requires AllDigits(o) && Octal(o) && Value(o, 8) < LIMIT && ValidDenom(denom)
    ensures ParseCoin([ZERO] + o + denom) == Some(Coin(denom, Value(o, 8)))
  {
    var ds := [ZERO] + o;
    OctalValue(o, ds);
    ParseShape(ds, denom);
  }

  lemma OctalValue(o: Bytes, ds: Bytes)
    requires AllDigits(o) && Octal(o) && Value(o, 8) < LIMIT && ds == [ZERO] + o
    ensures NewIntFromString(ds) == Some(Value(o, 8))
  {
    assert ds[1..] == o;
  }

  predicate OnlyZeros(s: Bytes) {
    forall i :: 0 <= i < |s| ==> s[i] == ZERO
  }

  lemma {:induction false} ZeroValue(s: Bytes)
    requires AllDigits(s)
    ensures Value(s, 10) == 0 <==> OnlyZeros(s)
  {
    if s != [] {
      ZeroValue(s[..|s| - 1]);
      assert OnlyZeros(s) <==> OnlyZeros(s[..|s| - 1]) && s[|s| - 1] == ZERO;
    }
  }

  // Read in base 8 a numeral is smaller, unless it has one digit after its zeros.
  lemma {:induction false} OctalIsLess(s: Bytes)
    requires AllDigits(s) && s != []
    ensures Value(s, 8) <= Value(s, 10)
    ensures Value(s, 8) == Value(s, 10) <==> OnlyZeros(s[..|s| - 1])
  {
    var init := s[..|s| - 1];
    ZeroValue(init);
    if init != [] { OctalIsLess(init); }
  }

  lemma {:induction false} LeadingZeroValue(s: Bytes, base: nat)
    requires AllDigits(s) && s != [] && s[0] == ZERO
    ensures Value(s, base) == Value(s[1..], base)
  {
    if |s| > 1 {
      var init := s[..|s| - 1];
      LeadingZeroValue(init, base);
      assert init[1..] == s[1..][..|s| - 2];
    }
  }

  // Exactly when a coin denotes the number its digits spell: there is no leading zero, or at most one
  // digit, below 8, follows the zeros.
  lemma ParsedAsSpelled(ds: Bytes, denom: Bytes)
    requires AllDigits(ds) && ds != [] && ValidDenom(denom)
    ensures ParseCoin(ds + denom) == Some(Coin(denom, Value(ds, 10))) <==>
            Value(ds, 10) < LIMIT && (ds[0] != ZERO || (OnlyZeros(ds[..|ds| - 1]) && ds[|ds| - 1] < 56))
  {
    ParseShape(ds, denom);
    if ds[0] == ZERO { ReadAsSpelled(ds); }
  }

  lemma ReadAsSpelled(ds: Bytes)
    requires AllDigits(ds) && ds != [] && ds[0] == ZERO
    ensures NewIntFromString(ds) == Some(Value(ds, 10)) <==>
            Value(ds, 10) < LIMIT && OnlyZeros(ds[..|ds| - 1]) && ds[|ds| - 1] < 56
  {
    OctalIsLess(ds);
    LeadingZeroValue(ds, 8);
    LastDigit(ds);
  }

  lemma LastDigit(ds: Bytes)
    requires ds != []
    ensures Octal(ds) ==> ds[|ds| - 1] < 56
    ensures OnlyZeros(ds[..|ds| - 1]) && ds[|ds| - 1] < 56 ==> Octal(ds)
  {
    var init := ds[..|ds| - 1];
    assert forall i :: 0 <= i < |init| ==> ds[i] == init[i];
  }

  lemma TwoDigits(a: Byte, b: Byte, base: nat)
    requires IsDigit(a) && IsDigit(b)
    ensures Value([a, b], base) == (a - ZERO) * base + (b - ZERO)
  {
    assert [a, b][..1] == [a] && [a][..0] == [];
    assert Value([a], base) == Value([], base) * base + (a - ZERO);
  }

  // "010abc" is eight of abc, and "08abc" is refused.
  lemma SpelledOtherwise()
    ensures var abc := [97, 98, 99];
            ParseCoin([48] + [49, 48] + abc) == Some(Coin(abc, 8)) && ParseCoin([48, 56] + abc) == None
  {
    TwoDigits(49, 48, 8);
    LeadingZeroIsOctal([49, 48], [97, 98, 99]);
    ParseShape([48, 56], [97, 98, 99]);
    assert [48, 56][1] == 56;
  }

  // ---------- Spaces and order ----------

  predicate Blank(s: Bytes) {
    forall i :: 0 <= i < |s| ==> IsSpace(s[i])
  }

  lemma {:induction false} TrimLeftBlank(a: Bytes, s: Bytes)
    requires Blank(a)
    ensures TrimLeft(a + s) == TrimLeft(s)
  {
    if a == [] {
      assert a + s == s;
    } else {
      TrimLeftBlank(a[1..], s);
      assert (a + s)[1..] == a[1..] + s;
    }
  }

  lemma {:induction false} TrimRightBlank(s: Bytes, b: Bytes)
    requires Blank(b)
    ensures TrimRight(s + b) == TrimRight(s)
  {
    if b == [] {
      assert s + b == s;
    } else {
      TrimRightBlank(s, b[..|b| - 1]);
      assert (s + b)[..|s + b| - 1] == s + b[..|b| - 1];
    }
  }

  lemma TrimSpaceBlank(a: Bytes, s: Bytes, b: Bytes)
    requires Blank(a) && Blank(b) && s != [] && !IsSpace(s[0]) && !IsSpace(s[|s| - 1])
    ensures TrimSpace(a + s + b) == s
  {
    assert a + s + b == a + (s + b);
    TrimLeftBlank(a, s + b);
    TrimRightBlank(s, b);
  }

  // White space around a coin, and between its amount and its denomination, makes no difference.
  lemma SpacesIgnored(a: Bytes, ds: Bytes, gap: Bytes, denom: Bytes, b: Bytes)
    requires Blank(a) && Blank(gap) && Blank(b) && AllDigits(ds) && ds != [] && ValidDenom(denom)
    ensures ParseCoin(a + (ds + gap + denom) + b) == ParseCoin(ds + denom)
  {
    var s := ds + gap + denom;
    TrimSpaceBlank(a, s, b);
    ParseShape(ds, denom);
    assert s == ds + (gap + denom);
    DigitsStop(ds, gap + denom);
    assert s[..|ds|] == ds && s[|ds|..] == gap + denom;
    TrimLeftBlank(gap, denom);
  }

  predicate Ordered(cs: Coins) {
    forall i :: 0 <= i < |cs| - 1 ==> AtMost(cs[i].denom, cs[i + 1].denom)
  }

  lemma {:induction false} InsertCoinSorts(c: Coin, cs: Coins)
    requires Ordered(cs)
    ensures Ordered(InsertCoin(c, cs)) && multiset(InsertCoin(c, cs)) == multiset{c} + multiset(cs)
    ensures InsertCoin(c, cs)[0] == c || (cs != [] && InsertCoin(c, cs)[0] == cs[0])
  {
    if cs == [] || !Less(cs[0].denom, c.denom) {
      if cs != [] { LessTotal(cs[0].denom, c.denom); }
    } else {
      InsertCoinSorts(c, cs[1..]);
      assert cs == [cs[0]] + cs[1..];
      var r, t := InsertCoin(c, cs), InsertCoin(c, cs[1..]);
      forall i | 0 <= i < |r| - 1 ensures AtMost(r[i].denom, r[i + 1].denom) {
        if i > 0 { assert r[i] == t[i - 1] && r[i + 1] == t[i]; }
      }
    }
  }

  // sort.Sort: the same coins, by denomination.
  lemma {:induction false} SortCoinsSorts(cs: Coins)
    ensures Ordered(SortCoins(cs)) && multiset(SortCoins(cs)) == multiset(cs)
  {
    if cs != [] {
      SortCoinsSorts(cs[1..]);
      InsertCoinSorts(cs[0], SortCoins(cs[1..]));
      assert cs == [cs[0]] + cs[1..];
    }
  }

  predicate DifferentDenoms(cs: Coins) {
    forall i, j :: 0 <= i < j < |cs| ==> cs[i].denom != cs[j].denom
  }

  lemma {:induction false} StrictlySorted(cs: Coins)
    requires Ordered(cs) && forall i :: 0 <= i < |cs| - 1 ==> cs[i].denom != cs[i + 1].denom
    ensures Sorted(cs)
  {
    if |cs| > 1 {
      assert forall i :: 0 <= i < |cs[1..]| ==> cs[1..][i] == cs[i + 1];
      StrictlySorted(cs[1..]);
    }
  }

  // A list that gives each coin once has no two coins of one denomination in any order.
  lemma OnceInAnyOrder(cs: Coins, r: Coins, i: nat, j: nat)
    requires DifferentDenoms(cs) && multiset(r) == multiset(cs) && i < j < |r|
    ensures r[i].denom != r[j].denom
  {
    if r[i].denom == r[j].denom {
      var x, y := r[i], r[j];
      assert x in multiset(cs) && y in multiset(cs);
      var k :| 0 <= k < |cs| && cs[k] == x;
      var l :| 0 <= l < |cs| && cs[l] == y;
      assert k == l;
      TwiceIn(r, i, j);
      OnceIn(cs, k);
    }
  }

  lemma TwiceIn(r: Coins, i: nat, j: nat)
    requires i < j < |r| && r[i] == r[j]
    ensures multiset(r)[r[i]] >= 2
  {
    var x, y := r[..i + 1], r[i + 1..];
    assert r == x + y && x[i] == r[i] && y[j - i - 1] == r[j];
    assert r[i] in x && r[i] in y;
    assert multiset(r) == multiset(x) + multiset(y);
  }

  lemma OnceIn(cs: Coins, k: nat)
    requires DifferentDenoms(cs) && k < |cs|
    ensures multiset(cs)[cs[k]] == 1
  {
    var x, y := cs[..k], cs[k + 1..];
    assert cs == x + [cs[k]] + y;
    assert cs[k] !in x && cs[k] !in y;
  }

  lemma SortedIsValid(cs: Coins, r: Coins)
    requires r == SortCoins(cs) && DifferentDenoms(cs) && forall i :: 0 <= i < |cs| ==> Printable(cs[i])
    ensures Sorted(r) && IsValid(r) && multiset(r) == multiset(cs)
  {
    SortCoinsSorts(cs);
    forall i | 0 <= i < |r| - 1 ensures r[i].denom != r[i + 1].denom {
      OnceInAnyOrder(cs, r, i, i + 1);
    }
    StrictlySorted(r);
    forall i | 0 <= i < |r| ensures Printable(r[i]) {
      assert r[i] in multiset(cs);
    }
    PrintableIsValid(r);
  }

  // A printed list of different denominations is read back in order, whatever the order it is written in.
  lemma AnyOrderParses(cs: Coins)
    requires cs != [] && DifferentDenoms(cs) && forall i :: 0 <= i < |cs| ==> Printable(cs[i])
    ensures var r := ParsedCoins(Joined(cs)); r.Some? && Sorted(r.value) && multiset(r.value) == multiset(cs)
  {
    SplitJoined(cs);
    NoTrim(Joined(cs));
    ParseStrings(cs);
    ParsedFrom(Joined(cs), CoinStrings(cs), cs);
    SortedIsValid(cs, SortCoins(cs));
  }

  lemma ParsedFrom(str: Bytes, strs: seq<Bytes>, cs: Coins)
    requires str != [] && TrimSpace(str) == str && Split(str, COMMA) == strs && ParseAll(strs) == Some(cs)
    ensures ParsedCoins(str) == if IsValid(SortCoins(cs)) then Some(SortCoins(cs)) else None
  {}
}
