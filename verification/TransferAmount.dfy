/** A transfer's amount on its way from payload bytes to the stored decimal string. */
module TransferAmount {
  import opened Numerals
  import opened Text

  datatype TokenTransfer = TokenTransfer(
    payloadId: byte,
    limbs: seq<nat>,          // four 64-bit words, in the order they are read
    originAddress: seq<byte>,
    originChain: nat,
    targetAddress: seq<byte>,
    targetChain: nat)

  datatype Field = Amount | OriginAddress | OriginChain | TargetAddress | TargetChain

  datatype Result = Ok(value: TokenTransfer) | Missing(field: Field) | Panic

  // ----- decoding -----

  function Word(data: seq<byte>, at: nat, n: nat): nat
    requires at + n <= |data|
  {
    Value(256, data[at..at + n])
  }

  /** What decoding yields, by the length of the data. */
  function Decoded(data: seq<byte>): Result {
    if |data| == 0 then Panic
    else if |data| < 33 then Missing(Amount)
    else if |data| < 65 then Missing(OriginAddress)
    else if |data| < 67 then Missing(OriginChain)
    else if |data| < 99 then Missing(TargetAddress)
    else if |data| < 101 then Missing(TargetChain)
    else Ok(TokenTransfer(
              data[0],
              [Word(data, 1, 8), Word(data, 9, 8), Word(data, 17, 8), Word(data, 25, 8)],
              data[33..65], Word(data, 65, 2), data[67..99], Word(data, 99, 2)))
  }

  /** The decoder, reading field after field from the front. */
  method DecodeTokenTransfer(data: seq<byte>) returns (r: Result)
    ensures r == Decoded(data)
  {
    if |data| == 0 {
      return Panic;
    }
    var pos := 1;
    var limbs: seq<nat> := [];
    if pos + 32 > |data| {
      return Missing(Amount);
    }
    while |limbs| < 4
      invariant pos == 1 + 8 * |limbs| && |limbs| <= 4
      invariant forall i :: 0 <= i < |limbs| ==> limbs[i] == Word(data, 1 + 8 * i, 8)
    {
      limbs := limbs + [Value(256, data[pos..pos + 8])];
      pos := pos + 8;
    }
    if pos + 32 > |data| {
      return Missing(OriginAddress);
    }
    var originAddress := data[pos..pos + 32];
    pos := pos + 32;
    if pos + 2 > |data| {
      return Missing(OriginChain);
    }
    var originChain := Value(256, data[pos..pos + 2]);
    pos := pos + 2;
    if pos + 32 > |data| {
      return Missing(TargetAddress);
    }
    var targetAddress := data[pos..pos + 32];
    pos := pos + 32;
    if pos + 2 > |data| {
      return Missing(TargetChain);
    }
    var targetChain := Value(256, data[pos..pos + 2]);
    assert limbs == [Word(data, 1, 8), Word(data, 9, 8), Word(data, 17, 8), Word(data, 25, 8)];
    return Ok(TokenTransfer(data[0], limbs, originAddress, originChain, targetAddress, targetChain));
  }

  /** Where each field begins and ends. */
  function Place(f: Field): (nat, nat) {
    match f
    case Amount => (1, 33)
    case OriginAddress => (33, 65)
    case OriginChain => (65, 67)
    case TargetAddress => (67, 99)
    case TargetChain => (99, 101)
  }

  /** Which error is reported: the field in or before which the data ends. */
  lemma ErrorsMean(data: seq<byte>, f: Field)
    ensures Decoded(data) == Panic <==> data == []
    ensures Decoded(data) == Missing(f) <==> Place(f).0 <= |data| < Place(f).1
    ensures Decoded(data).Ok? <==> |data| >= 101
  {
    match f
    case Amount =>
    case OriginAddress =>
    case OriginChain =>
    case TargetAddress =>
    case TargetChain =>
  }

  /** Bytes after the last field do not matter, and every strict prefix is rejected. */
  lemma TrailingBytesIgnored(data: seq<byte>, extra: seq<byte>)
    requires Decoded(data).Ok?
    ensures Decoded(data + extra) == Decoded(data)
    ensures forall n :: 0 <= n < 101 ==> !Decoded(data[..n]).Ok?
  {
    var d := data + extra;
    assert forall i, j :: 0 <= i <= j <= |data| ==> d[i..j] == data[i..j];
  }

  /** The payload layout of a transfer. */
  function Payload(id: byte, amount: nat, origin: seq<byte>, originChain: nat, target: seq<byte>, targetChain: nat): seq<byte> {
    [id] + Bytes(amount, 32) + origin + Bytes(originChain, 2) + target + Bytes(targetChain, 2)
  }

  const WORD := Pow(256, 8)

  /** Four eight-byte words, most significant first, make up the number. */
  lemma WordsOfAmount(s: seq<byte>)
    requires |s| == 32
    ensures Value(256, s) == ((Value(256, s[0..8]) * WORD + Value(256, s[8..16])) * WORD
                              + Value(256, s[16..24])) * WORD + Value(256, s[24..32])
  {
    assert s[0..8] + s[8..16] == s[0..16] && s[0..16] + s[16..24] == s[0..24] && s[0..24] + s[24..32] == s;
    ValueConcat(256, s[0..8], s[8..16]);
    ValueConcat(256, s[0..16], s[16..24]);
    ValueConcat(256, s[0..24], s[24..32]);
  }

  function AmountOf(t: TokenTransfer): nat
    requires |t.limbs| == 4
  {
    ((t.limbs[0] * WORD + t.limbs[1]) * WORD + t.limbs[2]) * WORD + t.limbs[3]
  }

  /** Decoding a payload recovers every field, and the words denote the amount. */
  lemma DecodePayload(id: byte, amount: nat, origin: seq<byte>, originChain: nat, target: seq<byte>, targetChain: nat,
                      extra: seq<byte>)
    requires amount < Pow(256, 32) && |origin| == 32 && |target| == 32
    requires originChain < Pow(256, 2) && targetChain < Pow(256, 2)
    ensures var r := Decoded(Payload(id, amount, origin, originChain, target, targetChain) + extra);
      r.Ok? && |r.value.limbs| == 4 && AmountOf(r.value) == amount && r.value.payloadId == id
      && r.value.originAddress == origin && r.value.originChain == originChain
      && r.value.targetAddress == target && r.value.targetChain == targetChain
  {
    var p := Payload(id, amount, origin, originChain, target, targetChain);
    PayloadFields(id, amount, origin, originChain, target, targetChain);
    ValueFixed(256, amount, 32);
    ValueFixed(256, originChain, 2);
    ValueFixed(256, targetChain, 2);
    DecodedFields(p);
    TrailingBytesIgnored(p, extra);
  }

  lemma DecodedFields(p: seq<byte>)
    requires |p| == 101
    ensures var r := Decoded(p);
      r.Ok? && |r.value.limbs| == 4 && AmountOf(r.value) == Value(256, p[1..33]) && r.value.payloadId == p[0]
      && r.value.originAddress == p[33..65] && r.value.originChain == Value(256, p[65..67])
      && r.value.targetAddress == p[67..99] && r.value.targetChain == Value(256, p[99..101])
  {
    WordsOfAmount(p[1..33]);
    SubWords(p);
  }

  lemma PayloadFields(id: byte, amount: nat, origin: seq<byte>, originChain: nat, target: seq<byte>, targetChain: nat)
    requires |origin| == 32 && |target| == 32
    ensures var p := Payload(id, amount, origin, originChain, target, targetChain);
      |p| == 101 && p[0] == id && p[1..33] == Bytes(amount, 32) && p[33..65] == origin
      && p[65..67] == Bytes(originChain, 2) && p[67..99] == target && p[99..101] == Bytes(targetChain, 2)
  {
  }

  lemma SubWords(p: seq<byte>)
    requires |p| == 101
    ensures p[1..33][0..8] == p[1..9] && p[1..33][8..16] == p[9..17]
    ensures p[1..33][16..24] == p[17..25] && p[1..33][24..32] == p[25..33]
  {
    SliceOfSlice(p, 1, 33, 0, 8);
    SliceOfSlice(p, 1, 33, 8, 16);
    SliceOfSlice(p, 1, 33, 16, 24);
    SliceOfSlice(p, 1, 33, 24, 32);
  }

  lemma SliceOfSlice(p: seq<byte>, a: nat, b: nat, i: nat, j: nat)
    requires a <= b <= |p| && i <= j <= b - a
    ensures p[a..b][i..j] == p[a + i..a + j]
  {
    var s, t := p[a..b][i..j], p[a + i..a + j];
    forall k | 0 <= k < j - i ensures s[k] == t[k] {
      assert p[a..b][i + k] == p[a + (i + k)];
    }
  }

  // ----- the stored string -----

  /** The amount as stored: the last word in decimal. When the third word is not zero the
      raw bytes of the number library are stored instead, which is not modelled. */
  function StoredAmount(t: TokenTransfer): (s: string)
    requires |t.limbs| == 4 && t.limbs[2] == 0
  {
    Decimal(t.limbs[3])
  }

  /** The stored string denotes the amount exactly when the amount fits 64 bits. The test of
      the third word alone lets larger amounts through. */
  lemma StoredExactIff(t: TokenTransfer)
    requires |t.limbs| == 4 && t.limbs[2] == 0 && forall i :: 0 <= i < 4 ==> t.limbs[i] < WORD
    ensures ParseDecimal(StoredAmount(t)) == AmountOf(t) <==> AmountOf(t) < WORD
  {
    ParsePadded(t.limbs[3], 0);
    PowPositive(256, 8);
    var high := t.limbs[0] * WORD + t.limbs[1];
    assert AmountOf(t) == high * WORD * WORD + t.limbs[3];
    if high > 0 {
      MulMono(1, high, WORD);
      MulMono(1, high * WORD, WORD);
    }
  }

  lemma SameWords(t: TokenTransfer, high: nat, low: nat)
    requires |t.limbs| == 4 && (forall i :: 0 <= i < 4 ==> t.limbs[i] < WORD) && high < WORD && low < WORD
    requires AmountOf(t) == high * WORD * WORD + low
    ensures t.limbs[2] == 0 && t.limbs[3] == low
  {
    PowPositive(256, 8);
    PowMono(256, 1, 8);
    assert Pow(256, 1) == 256 by { assert Pow(256, 0) == 1; }
    var upper := (t.limbs[0] * WORD + t.limbs[1]) * WORD + t.limbs[2];
    Unique(upper, WORD, t.limbs[3], high * WORD, low);
    Unique(t.limbs[0] * WORD + t.limbs[1], WORD, t.limbs[2], high, 0);
  }

  /** The payload of a transfer of 2^128 units passes the overflow test, and is stored as
      "0". */
  lemma LargeAmountStoredAsZero(origin: seq<byte>, originChain: nat, target: seq<byte>, targetChain: nat)
    requires |origin| == 32 && |target| == 32 && originChain < Pow(256, 2) && targetChain < Pow(256, 2)
    ensures var r := Decoded(Payload(1, Pow(256, 16), origin, originChain, target, targetChain));
      r.Ok? && |r.value.limbs| == 4 && r.value.limbs[2] == 0
      && StoredAmount(r.value) == "0" && AmountOf(r.value) == Pow(256, 16) > 0
  {
    var amount, p := Pow(256, 16), Payload(1, Pow(256, 16), origin, originChain, target, targetChain);
    PowPositive(256, 16);
    PowStrict(256, 16, 32);
    DecodePayload(1, amount, origin, originChain, target, targetChain, []);
    assert p + [] == p;
    var t := Decoded(p).value;
    WordBounds(p);
    SquareOfWord();
    SameWords(t, 1, 0);
    assert Minimal(10, 0) == [0] && Decimal(0) == "0";
  }

  lemma SquareOfWord()
    ensures Pow(256, 16) == 1 * WORD * WORD + 0 && WORD > 1
  {
    PowSum(256, 8, 8);
    PowStrict(256, 0, 8);
  }

  lemma WordBounds(data: seq<byte>)
    requires Decoded(data).Ok?
    ensures var t := Decoded(data).value; |t.limbs| == 4 && forall i :: 0 <= i < 4 ==> t.limbs[i] < WORD
  {
    ValueBound(256, data[1..9]);
    ValueBound(256, data[9..17]);
    ValueBound(256, data[17..25]);
    ValueBound(256, data[25..33]);
  }

  // ----- scaling by decimals -----

  datatype Parts = Parts(whole: string, fraction: string)

  function Min(a: nat, b: nat): nat {
    if a < b then a else b
  }

  /** Splits off at most eight decimals, padding short amounts with zeros on the left: the
      text before and after the point denotes the amount over 10^min(decimals, 8), with that
      many decimals and no digit lost. */
  method ScaleAmount(amount: string, decimals: nat) returns (p: Parts, calculated: string)
    ensures calculated == p.whole + "." + p.fraction
    ensures |p.fraction| == Min(decimals, 8) && EndsWith(p.whole + p.fraction, amount)
    ensures DenotesScaled(p, amount, decimals)
    ensures p == Scaled(amount, decimals)
  {
    p, calculated := SplitAmount(amount, decimals);
    ScaledDenotes(amount, decimals);
    ScaledEndsWith(amount, decimals);
  }

  predicate EndsWith(s: string, t: string) {
    |t| <= |s| && s[|s| - |t|..] == t
  }

  /** The notation denotes the amount over 10^min(decimals, 8). */
  ghost predicate DenotesScaled(p: Parts, amount: string, decimals: nat) {
    var d := Min(decimals, 8);
    Pow(10, d) > 0 && Denotes(p) == ParseDecimal(amount) as real / Pow(10, d) as real
  }

  lemma ScaledDenotes(amount: string, decimals: nat)
    ensures DenotesScaled(Scaled(amount, decimals), amount, decimals)
  {
    ScaledValue(amount, decimals);
  }

  method SplitAmount(amount: string, decimals: nat) returns (p: Parts, calculated: string)
    ensures calculated == p.whole + "." + p.fraction
    ensures p == Scaled(amount, decimals)
  {
    var decimals' := decimals;
    if decimals' > 8 {
      decimals' := 8;
    }
    var amount' := amount;
    if |amount'| < decimals' {
      amount' := Show(Zeros(decimals' - |amount'|)) + amount';
    }
    p := Parts(amount'[..|amount'| - decimals'], amount'[|amount'| - decimals'..]);
    calculated := p.whole + "." + p.fraction;
  }

  lemma ScaledEndsWith(amount: string, decimals: nat)
    ensures var p := Scaled(amount, decimals); EndsWith(p.whole + p.fraction, amount)
  {
    var d, p := Min(decimals, 8), Scaled(amount, decimals);
    var a := if |amount| < d then Show(Zeros(d - |amount|)) + amount else amount;
    assert p.whole + p.fraction == a;
  }

  function Scaled(amount: string, decimals: nat): (p: Parts)
    ensures |p.fraction| == Min(decimals, 8)
  {
    var d := Min(decimals, 8);
    var a := if |amount| < d then Show(Zeros(d - |amount|)) + amount else amount;
    Parts(a[..|a| - d], a[|a| - d..])
  }

  /** The number a decimal point notation denotes. */
  function Denotes(p: Parts): real
  {
    PowPositive(10, |p.fraction|);
    ParseDecimal(p.whole) as real + ParseDecimal(p.fraction) as real / Pow(10, |p.fraction|) as real
  }

  lemma ReadConcat(s: string, t: string)
    ensures Read(s + t) == Read(s) + Read(t)
  {
  }

  /** Splitting keeps the digits: together they still denote the amount. */
  lemma ScaledKeepsDigits(amount: string, decimals: nat)
    ensures var p := Scaled(amount, decimals);
      ParseDecimal(p.whole) * Pow(10, |p.fraction|) + ParseDecimal(p.fraction) == ParseDecimal(amount)
  {
    var d := Min(decimals, 8);
    var a := if |amount| < d then Show(Zeros(d - |amount|)) + amount else amount;
    if |amount| < d {
      var z := Zeros(d - |amount|);
      ReadConcat(Show(z), amount);
      ReadShow(z);
      ValuePadded(10, d - |amount|, Read(amount));
    }
    var p := Scaled(amount, decimals);
    assert a == p.whole + p.fraction;
    ReadConcat(p.whole, p.fraction);
    ValueConcat(10, Read(p.whole), Read(p.fraction));
  }

  lemma Ratio(a: real, b: real, p: real, n: real)
    requires p > 0.0 && a * p + b == n
    ensures a + b / p == n / p
  {
    assert (a + b / p) * p == n;
  }

  lemma RatioOfNats(a: nat, b: nat, p: nat, n: nat)
    requires p > 0 && a * p + b == n
    ensures a as real + b as real / p as real == n as real / p as real
  {
    assert (a * p) as real == a as real * p as real;
    Ratio(a as real, b as real, p as real, n as real);
  }

  lemma ScaledValue(amount: string, decimals: nat)
    ensures Pow(10, Min(decimals, 8)) > 0
    ensures Denotes(Scaled(amount, decimals))
         == ParseDecimal(amount) as real / Pow(10, Min(decimals, 8)) as real
  {
    var p := Scaled(amount, decimals);
    PowPositive(10, Min(decimals, 8));
    ScaledKeepsDigits(amount, decimals);
    RatioOfNats(ParseDecimal(p.whole), ParseDecimal(p.fraction), Pow(10, |p.fraction|), ParseDecimal(amount));
  }

  /** End to end: for every payload whose amount fits 64 bits, whatever follows it, the
      stored amount denotes amount / 10^min(decimals, 8). */
  lemma EndToEnd(id: byte, amount: nat, origin: seq<byte>, originChain: nat, target: seq<byte>, targetChain: nat,
                 extra: seq<byte>, decimals: nat)
    requires amount < WORD && |origin| == 32 && |target| == 32
    requires originChain < Pow(256, 2) && targetChain < Pow(256, 2)
    ensures Pow(10, Min(decimals, 8)) > 0
    ensures var r := Decoded(Payload(id, amount, origin, originChain, target, targetChain) + extra);
      r.Ok? && |r.value.limbs| == 4 && r.value.limbs[2] == 0
      && Denotes(Scaled(StoredAmount(r.value), decimals)) == amount as real / Pow(10, Min(decimals, 8)) as real
  {
    PowMono(256, 8, 32);
    DecodePayload(id, amount, origin, originChain, target, targetChain, extra);
    var t := Decoded(Payload(id, amount, origin, originChain, target, targetChain) + extra).value;
    SmallAmount(t, amount);
    ParsePadded(amount, 0);
    ScaledValue(StoredAmount(t), decimals);
  }

  lemma SmallAmount(t: TokenTransfer, amount: nat)
    requires |t.limbs| == 4 && AmountOf(t) == amount < WORD
    ensures t.limbs[2] == 0 && t.limbs[3] == amount
  {
    var high := (t.limbs[0] * WORD + t.limbs[1]) * WORD + t.limbs[2];
    assert amount == high * WORD + t.limbs[3];
    if high > 0 { MulMono(1, high, WORD); }
    assert high == 0;
    assert (t.limbs[0] * WORD + t.limbs[1]) * WORD >= 0;
  }
}
