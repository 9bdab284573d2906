/** Digits as text, and strings in dictionary order. */
module Text {
  import opened Numerals

  type byte = x: nat | x < 256

  predicate HexDigits(s: seq<nat>) {
    forall i :: 0 <= i < |s| ==> s[i] < 16
  }

  /** Lower-case digit characters, for bases up to 16. */
  function DigitChar(d: nat): char
    requires d < 16
  {
    if d < 10 then '0' + d as char else 'a' + (d - 10) as char
  }

  /** The digits, with lower-case letters. */
  lemma DigitChars(d: nat)
    requires d < 16
    ensures DigitChar(d) == "0123456789abcdef"[d]
  {
  }

  function CharDigit(c: char): nat {
    if '0' <= c <= '9' then (c - '0') as nat
    else if 'a' <= c <= 'f' then (c - 'a') as nat + 10
    else if 'A' <= c <= 'F' then (c - 'A') as nat + 10
    else 0
  }

  function Show(s: seq<nat>): (t: string)
    requires HexDigits(s)
    ensures |t| == |s| && forall i :: 0 <= i < |s| ==> t[i] == DigitChar(s[i])
  {
    seq(|s|, i requires 0 <= i < |s| => DigitChar(s[i]))
  }

  function Read(t: string): (s: seq<nat>)
    ensures |s| == |t| && forall i :: 0 <= i < |s| ==> s[i] == CharDigit(t[i])
  {
    seq(|t|, i requires 0 <= i < |t| => CharDigit(t[i]))
  }

  lemma ReadShow(s: seq<nat>)
    requires HexDigits(s)
    ensures Read(Show(s)) == s
  {
  }

  function Decimal(n: nat): string {
    Show(Minimal(10, n))
  }

  /** `%0wd`: at least `w` decimal digits. */
  function PadDecimal(n: nat, w: nat): string {
    Show(Numerals.Padded(10, n, w))
  }

  function ParseDecimal(t: string): nat {
    Value(10, Read(t))
  }

  lemma ParsePadded(n: nat, w: nat)
    ensures ParseDecimal(PadDecimal(n, w)) == n && ParseDecimal(Decimal(n)) == n
  {
    var m := Minimal(10, n);
    ValueMinimal(10, n);
    ReadShow(m);
    ReadShow(Numerals.Padded(10, n, w));
    if |m| < w { ValuePadded(10, w - |m|, m); }
  }

  // ----- bytes, and bytes as hexadecimal text -----

  /** A number in `w` bytes, most significant first. */
  function Bytes(n: nat, w: nat): (s: seq<byte>)
    ensures |s| == w
  {
    Fixed(256, n, w)
  }

  function Nibbles(bytes: seq<byte>): (s: seq<nat>)
    ensures |s| == 2 * |bytes| && HexDigits(s)
  {
    if bytes == [] then [] else [bytes[0] / 16, bytes[0] % 16] + Nibbles(bytes[1..])
  }

  function ToHex(bytes: seq<byte>): string {
    Show(Nibbles(bytes))
  }

  function FromNibbles(s: seq<nat>): seq<byte>
    requires HexDigits(s)
  {
    if |s| < 2 then [] else [s[0] * 16 + s[1]] + FromNibbles(s[2..])
  }

  lemma {:induction false} FromNibblesInverts(bytes: seq<byte>)
    ensures FromNibbles(Nibbles(bytes)) == bytes
  {
    if bytes != [] {
      var s := Nibbles(bytes);
      assert s[2..] == Nibbles(bytes[1..]);
      FromNibblesInverts(bytes[1..]);
    }
  }

  lemma ToHexInjective(a: seq<byte>, b: seq<byte>)
    requires ToHex(a) == ToHex(b)
    ensures a == b
  {
    ReadShow(Nibbles(a));
    ReadShow(Nibbles(b));
    FromNibblesInverts(a);
    FromNibblesInverts(b);
  }

  // ----- dictionary order -----

  ghost predicate LexBelow(s: string, t: string) {
    t != "" && (s == "" || s[0] < t[0] || (s[0] == t[0] && LexBelow(s[1..], t[1..])))
  }

  lemma {:induction false} LexAsymmetric(s: string, t: string)
    requires LexBelow(s, t)
    ensures !LexBelow(t, s)
  {
    if s != "" && s[0] == t[0] { LexAsymmetric(s[1..], t[1..]); }
  }

  lemma {:induction false} LexShow(s: seq<nat>, t: seq<nat>)
    requires HexDigits(s) && HexDigits(t)
    ensures LexBelow(Show(s), Show(t)) <==> Below(s, t)
  {
    if s != [] && t != [] {
      assert Show(s)[1..] == Show(s[1..]) && Show(t)[1..] == Show(t[1..]);
      LexShow(s[1..], t[1..]);
    }
  }

  lemma {:induction false} LexPrefix(p: string, s: string, t: string)
    ensures LexBelow(p + s, p + t) <==> LexBelow(s, t)
  {
    if p == "" {
      assert p + s == s && p + t == t;
    } else {
      assert (p + s)[1..] == p[1..] + s && (p + t)[1..] == p[1..] + t;
      LexPrefix(p[1..], s, t);
    }
  }

  /** Whatever lies between two strings with a common prefix has that prefix. */
  lemma {:induction false} LexSandwich(p: string, a: string, b: string, k: string)
    requires !LexBelow(k, p + a) && LexBelow(k, p + b)
    ensures p <= k
  {
    if p != "" {
      assert (p + a)[0] == p[0] && (p + b)[0] == p[0];
      assert (p + a)[1..] == p[1..] + a && (p + b)[1..] == p[1..] + b;
      if k != "" && k[0] == p[0] {
        LexSandwich(p[1..], a, b, k[1..]);
        assert k == [k[0]] + k[1..] && p == [p[0]] + p[1..];
      }
    }
  }

  // ----- splitting on ":" -----

  function Split(s: string): (parts: seq<string>)
    ensures |parts| > 0
  {
    if s == "" then [""]
    else
      var rest := Split(s[1..]);
      if s[0] == ':' then [""] + rest else [[s[0]] + rest[0]] + rest[1..]
  }

  lemma {:induction false} SplitPlain(a: string)
    requires ':' !in a
    ensures Split(a) == [a]
  {
    if a != "" {
      SplitPlain(a[1..]);
      assert [a[0]] + a[1..] == a;
    }
  }

  lemma {:induction false} SplitFirst(a: string, rest: string)
    requires ':' !in a
    ensures Split(a + ":" + rest) == [a] + Split(rest)
  {
    var s := a + ":" + rest;
    if a == "" {
      assert s[1..] == rest;
    } else {
      assert s[1..] == a[1..] + ":" + rest;
      SplitFirst(a[1..], rest);
      assert [a[0]] + a[1..] == a;
    }
  }
}

/** Row keys of the event table: emitter chain, emitter address and sequence number. */
module RowKeys {
  import opened Numerals
  import opened Text

  datatype Key = Key(chain: nat, address: seq<byte>, sequence: nat)

  const WIDTH := 16

  /** The part of a key that names the emitter, up to and including the second colon. */
  function EmitterPrefix(chain: nat, address: seq<byte>): string {
    Decimal(chain) + ":" + (ToHex(address) + ":")
  }

  function MakeRowKey(k: Key): string {
    EmitterPrefix(k.chain, k.address) + PadDecimal(k.sequence, WIDTH)
  }

  lemma NoColons(s: seq<nat>)
    requires HexDigits(s)
    ensures ':' !in Show(s)
  {
  }

  lemma SplitPrefix(chain: nat, address: seq<byte>, rest: string)
    ensures Split(EmitterPrefix(chain, address) + rest) == [Decimal(chain), ToHex(address)] + Split(rest)
  {
    NoColons(Minimal(10, chain));
    NoColons(Nibbles(address));
    assert EmitterPrefix(chain, address) + rest == Decimal(chain) + ":" + (ToHex(address) + ":" + rest);
    SplitFirst(Decimal(chain), ToHex(address) + ":" + rest);
    SplitFirst(ToHex(address), rest);
  }

  /** Splitting a made key gives back its three parts. */
  lemma SplitMadeKey(k: Key)
    ensures Split(MakeRowKey(k)) == [Decimal(k.chain), ToHex(k.address), PadDecimal(k.sequence, WIDTH)]
  {
    SplitPrefix(k.chain, k.address, PadDecimal(k.sequence, WIDTH));
    NoColons(Numerals.Padded(10, k.sequence, WIDTH));
    SplitPlain(PadDecimal(k.sequence, WIDTH));
  }

  /** Different messages have different row keys. */
  lemma MakeRowKeyInjective(k: Key, k': Key)
    ensures MakeRowKey(k) == MakeRowKey(k') <==> k == k'
  {
    if MakeRowKey(k) == MakeRowKey(k') {
      SplitMadeKey(k);
      SplitMadeKey(k');
      var parts, parts' := Split(MakeRowKey(k)), Split(MakeRowKey(k'));
      assert parts[0] == parts'[0] && parts[1] == parts'[1] && parts[2] == parts'[2];
      ParsePadded(k.chain, 0);
      ParsePadded(k'.chain, 0);
      ToHexInjective(k.address, k'.address);
      ParsePadded(k.sequence, WIDTH);
      ParsePadded(k'.sequence, WIDTH);
    }
  }

  // ----- reading a key back -----

  function TrimZeros(t: string): string {
    if t != "" && t[0] == '0' then TrimZeros(t[1..]) else t
  }

  /** The sequence as it is displayed for a row that has only its key. */
  function SequenceOf(part: string): string {
    var seq' := TrimZeros(part);
    if seq' == "" then "0" else seq'
  }

  lemma {:induction false} TrimPadding(k: nat, t: string)
    requires t == "" || t[0] != '0'
    ensures TrimZeros(Show(Zeros(k)) + t) == t
  {
    var z := Show(Zeros(k));
    if k == 0 {
      assert z + t == t;
    } else {
      assert (z + t)[1..] == Show(Zeros(k - 1)) + t;
      TrimPadding(k - 1, t);
    }
  }

  lemma ShowConcat(s: seq<nat>, t: seq<nat>)
    requires HexDigits(s) && HexDigits(t)
    ensures Show(s + t) == Show(s) + Show(t)
  {
  }

  /** Trimming a padded number gives its plain digits, or nothing for zero. */
  lemma TrimPadded(n: nat, w: nat)
    ensures TrimZeros(PadDecimal(n, w)) == if n > 0 then Decimal(n) else ""
  {
    var m := Minimal(10, n);
    ValueMinimal(10, n);
    var pad := if |m| < w then w - |m| else 0;
    assert Numerals.Padded(10, n, w) == Zeros(pad) + m;
    ShowConcat(Zeros(pad), m);
    if n > 0 {
      TrimPadding(pad, Show(m));
    } else {
      assert Zeros(pad) + m == Zeros(pad + 1);
      assert Show(Zeros(pad + 1)) + "" == Show(Zeros(pad + 1));
      TrimPadding(pad + 1, "");
    }
  }

  /** Row-key round trip, for every sequence number including zero. */
  lemma KeyRoundTrip(k: Key)
    ensures var parts := Split(MakeRowKey(k));
      |parts| == 3 && parts[1] == ToHex(k.address) && SequenceOf(parts[2]) == Decimal(k.sequence)
  {
    SplitMadeKey(k);
    TrimPadded(k.sequence, WIDTH);
  }

  /** The aggregates take the first character of a key as the leaving chain. That is the
      emitter's chain exactly when its number has one digit. */
  lemma FirstCharacterIsChain(k: Key)
    ensures MakeRowKey(k)[..1] == Decimal(k.chain) <==> k.chain < 10
  {
    MinimalWidth(10, k.chain, 1);
    assert Pow(10, 1) == 10 by { assert Pow(10, 0) == 1; }
    var d := Decimal(k.chain);
    assert MakeRowKey(k)[..1] == d[..1];
    if |d| == 1 {
      assert d[..1] == d;
    }
  }

  // ----- order -----

  const LIMIT := Pow(10, WIDTH)

  /** Zero-padding to sixteen digits makes dictionary order numeric exactly as long as the
      sequence numbers stay below 10^16. */
  lemma OrderIsNumericIff(bound: nat)
    ensures (forall m: nat, n: nat | m <= bound && n <= bound ::
               LexBelow(PadDecimal(m, WIDTH), PadDecimal(n, WIDTH)) <==> m < n)
       <==> bound < LIMIT
  {
    if bound < LIMIT {
      forall m: nat, n: nat | m <= bound && n <= bound
        ensures LexBelow(PadDecimal(m, WIDTH), PadDecimal(n, WIDTH)) <==> m < n
      {
        OrderBelowLimit(m, n);
      }
    } else {
      OrderFailsAtLimit();
    }
  }

  lemma OrderBelowLimit(m: nat, n: nat)
    requires m < LIMIT && n < LIMIT
    ensures LexBelow(PadDecimal(m, WIDTH), PadDecimal(n, WIDTH)) <==> m < n
  {
    PaddedIsFixed(10, m, WIDTH);
    PaddedIsFixed(10, n, WIDTH);
    LexShow(Fixed(10, m, WIDTH), Fixed(10, n, WIDTH));
    FixedOrder(10, m, n, WIDTH);
  }

  /** 10^16 has seventeen digits and sorts before 9 * 10^15. */
  lemma OrderFailsAtLimit()
    ensures var m := 9 * Pow(10, 15);
      m < LIMIT && LexBelow(PadDecimal(LIMIT, WIDTH), PadDecimal(m, WIDTH))
  {
    PowPositive(10, 15);
    StartsWith(1, 16);
    StartsWith(9, 15);
    assert 1 * Pow(10, 16) == LIMIT;
    LexShow(Numerals.Padded(10, LIMIT, WIDTH), Numerals.Padded(10, 9 * Pow(10, 15), WIDTH));
  }

  /** d * 10^w is written with w + 1 digits, the first of which is d. */
  lemma StartsWith(d: nat, w: nat)
    requires 0 < d < 10 && w > 0
    ensures |Minimal(10, d * Pow(10, w))| == w + 1 && Minimal(10, d * Pow(10, w))[0] == d
  {
    var n := d * Pow(10, w);
    Between(d, w);
    MinimalWidth(10, n, w);
    MinimalWidth(10, n, w + 1);
    FirstDigit(10, n, w);
    PowPositive(10, w);
    SameLeading(d, Minimal(10, n)[0], Pow(10, w));
  }

  lemma Between(d: nat, w: nat)
    requires 0 < d < 10
    ensures Pow(10, w) <= d * Pow(10, w) < Pow(10, w + 1)
  {
    PowPositive(10, w);
    MulMono(1, d, Pow(10, w));
    MulMono(d, 9, Pow(10, w));
  }

  lemma SameLeading(d: nat, e: nat, p: nat)
    requires p > 0 && e * p <= d * p < e * p + p
    ensures d == e
  {
    if e < d { MulMono(e + 1, d, p); }
    if d < e { MulMono(d + 1, e, p); }
  }

  lemma FirstDigit(b: Base, n: nat, w: nat)
    requires |Minimal(b, n)| == w + 1
    ensures Minimal(b, n)[0] * Pow(b, w) <= n < Minimal(b, n)[0] * Pow(b, w) + Pow(b, w)
  {
    var s := Minimal(b, n);
    ValueMinimal(b, n);
    assert s == [s[0]] + s[1..];
    ValueConcat(b, [s[0]], s[1..]);
    assert Value(b, [s[0]]) == s[0] by { assert [s[0]][..0] == []; }
    ValueBound(b, s[1..]);
  }

  // ----- the recent-rows query -----

  predicate SameEmitter(k: Key, k': Key) {
    k.chain == k'.chain && k.address == k'.address
  }

  ghost predicate InRange(key: string, start: string, end: string) {
    !LexBelow(key, start) && LexBelow(key, end)
  }

  lemma EmitterOrder(k: Key, k': Key)
    requires SameEmitter(k, k') && k.sequence < LIMIT && k'.sequence < LIMIT
    ensures LexBelow(MakeRowKey(k), MakeRowKey(k')) <==> k.sequence < k'.sequence
  {
    LexPrefix(EmitterPrefix(k.chain, k.address), PadDecimal(k.sequence, WIDTH), PadDecimal(k'.sequence, WIDTH));
    OrderBelowLimit(k.sequence, k'.sequence);
  }

  /** No other emitter's keys fall between two keys of one emitter. */
  lemma RangeNamesEmitter(e: Key, low: nat, end: nat, k: Key)
    requires InRange(MakeRowKey(k), MakeRowKey(e.(sequence := low)), MakeRowKey(e.(sequence := end)))
    ensures SameEmitter(k, e)
  {
    var p := EmitterPrefix(e.chain, e.address);
    LexSandwich(p, PadDecimal(low, WIDTH), PadDecimal(end, WIDTH), MakeRowKey(k));
    PrefixNamesEmitter(e, k);
  }

  lemma PrefixNamesEmitter(e: Key, k: Key)
    requires EmitterPrefix(e.chain, e.address) <= MakeRowKey(k)
    ensures SameEmitter(k, e)
  {
    var p := EmitterPrefix(e.chain, e.address);
    var rest := MakeRowKey(k)[|p|..];
    assert MakeRowKey(k) == p + rest;
    SplitPrefix(e.chain, e.address, rest);
    SplitMadeKey(k);
    SameParts(Split(MakeRowKey(k)), e, k, Split(rest));
  }

  lemma SameParts(parts: seq<string>, e: Key, k: Key, rest: seq<string>)
    requires parts == [Decimal(e.chain), ToHex(e.address)] + rest
    requires parts == [Decimal(k.chain), ToHex(k.address), PadDecimal(k.sequence, WIDTH)]
    ensures SameEmitter(k, e)
  {
    assert parts[0] == Decimal(e.chain) && parts[1] == ToHex(e.address);
    ParsePadded(e.chain, 0);
    ParsePadded(k.chain, 0);
    ToHexInjective(e.address, k.address);
  }

  /** The range from `low` up to but excluding `end` holds row `k` exactly if it is the
      emitter's and numbered low to high. */
  ghost predicate Selects(e: Key, low: nat, high: nat, end: nat, k: Key) {
    InRange(MakeRowKey(k), MakeRowKey(e.(sequence := low)), MakeRowKey(e.(sequence := end)))
    <==> SameEmitter(k, e) && low <= k.sequence <= high
  }

  ghost predicate RangeRight(e: Key, low: nat, high: nat, k: Key) {
    Selects(e, low, high, high + 1, k)
  }

  lemma RangeExact(e: Key, low: nat, high: nat, k: Key)
    requires low <= high && high + 1 < LIMIT && (SameEmitter(k, e) ==> k.sequence < LIMIT)
    ensures RangeRight(e, low, high, k)
  {
    if SameEmitter(k, e) {
      EmitterOrder(k, e.(sequence := low));
      EmitterOrder(k, e.(sequence := high + 1));
    } else if InRange(MakeRowKey(k), MakeRowKey(e.(sequence := low)), MakeRowKey(e.(sequence := high + 1))) {
      RangeNamesEmitter(e, low, high + 1, k);
    }
  }

  /** Range queries return exactly the rows numbered low to high, for every low and high and
      whatever rows there are up to a bound, if and only if the bound is below 10^16 - 1. */
  lemma RangeExactIff(e: Key, bound: nat)
    ensures (forall low: nat, high: nat, k: Key | low <= high <= bound && k.sequence <= bound ::
               RangeRight(e, low, high, k))
       <==> bound + 1 < LIMIT
  {
    if bound + 1 < LIMIT {
      forall low: nat, high: nat, k: Key | low <= high <= bound && k.sequence <= bound
        ensures RangeRight(e, low, high, k)
      {
        RangeExact(e, low, high, k);
      }
    } else {
      TopOfRangeFails(e);
      PowPositive(10, 15);
      assert !RangeRight(e, HIGH, LIMIT - 1, e.(sequence := HIGH));
    }
  }

  /** The sequence number that sorts after 10^16. */
  const HIGH := 9 * Pow(10, 15)

  /** A range that ends at 10^16 misses a row, as 10^16 sorts before it. */
  lemma TopOfRangeFails(e: Key)
    ensures HIGH < LIMIT && !Selects(e, HIGH, LIMIT - 1, LIMIT, e.(sequence := HIGH))
  {
    OrderFailsAtLimit();
    LexAsymmetric(PadDecimal(LIMIT, WIDTH), PadDecimal(HIGH, WIDTH));
    LexPrefix(EmitterPrefix(e.chain, e.address), PadDecimal(HIGH, WIDTH), PadDecimal(LIMIT, WIDTH));
  }

  /** A range that starts below 10^16 may miss row 10^16. */
  lemma LimitSortsLow(e: Key, high: nat, end: nat)
    requires high >= LIMIT
    ensures HIGH < LIMIT && !Selects(e, HIGH, high, end, e.(sequence := LIMIT))
  {
    OrderFailsAtLimit();
    LexPrefix(EmitterPrefix(e.chain, e.address), PadDecimal(LIMIT, WIDTH), PadDecimal(HIGH, WIDTH));
  }
}
