/** Signed messages as bytes: the layout, two independent encoders that produce it, and the
    parser of the signature list.

    Hashing and signing are parameters; everything else is computed as the code does, one
    encoder cutting hexadecimal ABI words, the other writing into byte buffers in place. */
module Vaa {
  import opened Numerals
  import opened Text

  datatype RawSig = RawSig(r: nat, s: nat, recovery: nat)
  type Sig = x: RawSig | x.r < Pow(256, 32) && x.s < Pow(256, 32) && x.recovery < 4 witness ZeroSig()

  function ZeroSig(): (x: RawSig)
    ensures x.r < Pow(256, 32) && x.s < Pow(256, 32) && x.recovery < 4
  {
    PowPositive(256, 32);
    RawSig(0, 0, 0)
  }

  type Keccak = seq<byte> -> seq<byte>
  type Signer = (string, seq<byte>) -> Sig

  // ----- the layout -----

  datatype Header = Header(timestamp: nat, nonce: nat, chain: nat, emitter: seq<byte>, sequence: nat, consistency: nat)

  predicate ValidHeader(h: Header) {
    h.timestamp < Pow(256, 4) && h.nonce < Pow(256, 4) && h.chain < Pow(256, 2) && |h.emitter| == 32
    && h.sequence < Pow(256, 8) && h.consistency < 256
  }

  function Body(h: Header, payload: seq<byte>): seq<byte> {
    Bytes(h.timestamp, 4) + Bytes(h.nonce, 4) + Bytes(h.chain, 2) + h.emitter + Bytes(h.sequence, 8) + Bytes(h.consistency, 1) + payload
  }

  /** One entry of the signature list: index, r, s and recovery bit, 66 bytes. */
  function SigEntry(i: byte, sig: Sig): (s: seq<byte>)
    ensures |s| == 66
  {
    [i] + (Bytes(sig.r, 32) + Bytes(sig.s, 32) + Bytes(sig.recovery, 1))
  }

  function SigEntries(sigs: seq<Sig>): (s: seq<byte>)
    requires |sigs| <= 256
    ensures |s| == 66 * |sigs|
  {
    if sigs == [] then []
    else SigEntries(sigs[..|sigs| - 1]) + SigEntry(|sigs| - 1, sigs[|sigs| - 1])
  }

  function Sigs(keccak: Keccak, sign: Signer, keys: seq<string>, body: seq<byte>): (sigs: seq<Sig>)
    ensures |sigs| == |keys|
  {
    seq(|keys|, i requires 0 <= i < |keys| => sign(keys[i], keccak(keccak(body))))
  }

  function Encoded(setIndex: nat, sigs: seq<Sig>, body: seq<byte>): seq<byte>
    requires |sigs| <= 255
  {
    Start(setIndex, |sigs|) + SigEntries(sigs) + body
  }

  /** Version, guardian set and signature count. */
  function Start(setIndex: nat, count: byte): (s: seq<byte>)
    ensures |s| == 6
  {
    [1] + Bytes(setIndex, 4) + [count]
  }

  /** What stands where in a body. */
  lemma BodyFields(h: Header, payload: seq<byte>)
    requires ValidHeader(h)
    ensures var b := Body(h, payload);
      |b| == 51 + |payload| && Value(256, b[..4]) == h.timestamp && Value(256, b[4..8]) == h.nonce
      && Value(256, b[8..10]) == h.chain && b[10..42] == h.emitter && Value(256, b[42..50]) == h.sequence
      && b[50] == h.consistency && b[51..] == payload
  {
    var b := Body(h, payload);
    assert b[..4] == Bytes(h.timestamp, 4) && b[4..8] == Bytes(h.nonce, 4) && b[8..10] == Bytes(h.chain, 2);
    assert b[10..42] == h.emitter && b[42..50] == Bytes(h.sequence, 8);
    ValueFixed(256, h.timestamp, 4);
    ValueFixed(256, h.nonce, 4);
    ValueFixed(256, h.chain, 2);
    ValueFixed(256, h.sequence, 8);
    assert Bytes(h.consistency, 1) == Fixed(256, h.consistency / 256, 0) + [h.consistency % 256];
    assert b[50] == Bytes(h.consistency, 1)[0];
    assert b[51..] == payload;
  }

  /** What stands where in a message: version one, guardian set, number of signatures, 66 bytes
      for each signature and the body. */
  lemma MessageFields(setIndex: nat, sigs: seq<Sig>, body: seq<byte>)
    requires |sigs| <= 255 && setIndex < Pow(256, 4)
    ensures var m := Encoded(setIndex, sigs, body);
      |m| == 6 + 66 * |sigs| + |body| && m[0] == 1 && Value(256, m[1..5]) == setIndex && m[5] == |sigs|
      && m[6 + 66 * |sigs|..] == body
  {
    var m := Encoded(setIndex, sigs, body);
    assert m[1..5] == Bytes(setIndex, 4);
    ValueFixed(256, setIndex, 4);
    assert m[6 + 66 * |sigs|..] == body;
  }

  /** What stands where in a signature: the guardian's index, r, s and the recovery bit. */
  lemma EntryFields(i: byte, sig: Sig)
    ensures var e := SigEntry(i, sig);
      e[0] == i && Value(256, e[1..33]) == sig.r && Value(256, e[33..65]) == sig.s && e[65] == sig.recovery
  {
    var e := SigEntry(i, sig);
    assert e[1..33] == Bytes(sig.r, 32) && e[33..65] == Bytes(sig.s, 32);
    ValueFixed(256, sig.r, 32);
    ValueFixed(256, sig.s, 32);
    assert Bytes(sig.recovery, 1) == Fixed(256, sig.recovery / 256, 0) + [sig.recovery % 256];
    assert e[65] == Bytes(sig.recovery, 1)[0];
  }

  /** Guardian `i` signs the double hash of the body with its own key. */
  lemma SignedByEach(keccak: Keccak, sign: Signer, keys: seq<string>, body: seq<byte>, i: nat)
    requires i < |keys|
    ensures |Sigs(keccak, sign, keys, body)| == |keys|
    ensures Sigs(keccak, sign, keys, body)[i] == sign(keys[i], keccak(keccak(body)))
  {
  }

  // ----- hexadecimal text -----

  predicate IsHex(t: string) {
    forall i :: 0 <= i < |t| ==> '0' <= t[i] <= '9' || 'a' <= t[i] <= 'f' || 'A' <= t[i] <= 'F'
  }

  function FromHex(t: string): seq<byte> {
    FromNibbles(Read(t))
  }

  lemma FromHexToHex(bytes: seq<byte>)
    ensures FromHex(ToHex(bytes)) == bytes
  {
    ReadShow(Nibbles(bytes));
    FromNibblesInverts(bytes);
  }

  lemma {:induction false} FromHexLength(t: string)
    ensures |FromHex(t)| == |t| / 2
  {
    FromNibblesLength(Read(t));
  }

  lemma {:induction false} FromNibblesLength(s: seq<nat>)
    requires HexDigits(s)
    ensures |FromNibbles(s)| == |s| / 2
  {
    if |s| >= 2 { FromNibblesLength(s[2..]); }
  }

  lemma {:induction false} NibblesConcat(a: seq<byte>, b: seq<byte>)
    ensures Nibbles(a + b) == Nibbles(a) + Nibbles(b)
  {
    if a == [] {
      assert a + b == b;
    } else {
      assert (a + b)[1..] == a[1..] + b;
      NibblesConcat(a[1..], b);
    }
  }

  /** Hexadecimal text of a concatenation. */
  lemma ToHexConcat(a: seq<byte>, b: seq<byte>)
    ensures ToHex(a + b) == ToHex(a) + ToHex(b)
  {
    NibblesConcat(a, b);
  }

  lemma TwoDigits(n: nat, k: nat)
    ensures Fixed(16, n, k + 2) == Fixed(16, n / 256, k) + [n % 256 / 16, n % 256 % 16]
  {
    var q := n / 16;
    assert q / 16 == n / 256 && q % 16 == n % 256 / 16 && n % 16 == n % 256 % 16;
    assert Fixed(16, q, k + 1) == Fixed(16, q / 16, k) + [q % 16];
    assert Fixed(16, n, k + 2) == Fixed(16, q, k + 1) + [n % 16];
  }

  /** A number's bytes in hexadecimal are its hexadecimal digits. */
  lemma {:induction false} NibblesOfBytes(n: nat, w: nat)
    ensures Nibbles(Bytes(n, w)) == Fixed(16, n, 2 * w)
  {
    if w > 0 {
      NibblesOfBytes(n / 256, w - 1);
      NibblesConcat(Bytes(n / 256, w - 1), [n % 256]);
      assert Nibbles([n % 256]) == [n % 256 / 16, n % 256 % 16] by { assert [n % 256][1..] == []; }
      TwoDigits(n, 2 * (w - 1));
    }
  }

  // ----- the ABI-word encoder -----

  /** The ABI encoding of one unsigned integer: a 32-byte word in hexadecimal. */
  function AbiWord(n: nat): (t: string)
    ensures |t| == 66
  {
    "0x" + Show(Fixed(16, n, 64))
  }

  function AbiBytes32(bytes: seq<byte>): string {
    "0x" + ToHex(bytes)
  }

  /** Cutting the last digits off a word gives the number's low bytes. */
  lemma AbiTail(n: nat, w: nat)
    requires w <= 32
    ensures AbiWord(n)[2 + (64 - 2 * w)..] == ToHex(Bytes(n, w))
  {
    var s := Fixed(16, n, 64);
    FixedSuffix(16, n, 64, 2 * w);
    NibblesOfBytes(n, w);
    assert AbiWord(n)[2 + (64 - 2 * w)..] == Show(s)[64 - 2 * w..];
    assert Show(s)[64 - 2 * w..] == Show(s[64 - 2 * w..]);
  }

  /** `toString(16)`. */
  function HexOf(n: nat): string {
    Show(Minimal(16, n))
  }

  /** The while loop that prepends zeros. */
  method ZeroPadBytes(value: string, length: nat) returns (padded: string)
    ensures padded == ZeroPad(value, length)
  {
    padded := value;
    assert Show(Zeros(0)) + value == value;
    while |padded| < 2 * length
      invariant |padded| >= |value| && (|padded| > |value| ==> |padded| <= 2 * length)
      invariant padded == Show(Zeros(|padded| - |value|)) + value
      decreases 2 * length - |padded|
    {
      assert "0" + Show(Zeros(|padded| - |value|)) == Show(Zeros(|padded| + 1 - |value|));
      padded := "0" + padded;
    }
  }

  /** The same by concatenation. */
  function ZeroPad(value: string, length: nat): string {
    if |value| < 2 * length then Show(Zeros(2 * length - |value|)) + value else value
  }

  /** Padding a number's digits to `w` bytes gives exactly its bytes. */
  lemma ZeroPadIsBytes(n: nat, w: nat)
    requires w > 0 && n < Pow(256, w)
    ensures ZeroPad(HexOf(n), w) == ToHex(Bytes(n, w))
  {
    PowSquare(w);
    var m := Minimal(16, n);
    PaddedIsFixed(16, n, 2 * w);
    NibblesOfBytes(n, w);
    if |m| < 2 * w {
      assert Show(Zeros(2 * w - |m|)) + Show(m) == Show(Zeros(2 * w - |m|) + m);
    }
  }

  lemma {:induction false} PowSquare(w: nat)
    ensures Pow(256, w) == Pow(16, 2 * w)
  {
    if w > 0 {
      PowSquare(w - 1);
      assert Pow(16, 2 * w) == 16 * (16 * Pow(16, 2 * w - 2));
    }
  }

  function KeccakHex(keccak: Keccak, t: string): string {
    ToHex(keccak(FromHex(t)))
  }

  method SignAndEncodeVM(
    h: Header, data: string, ghost payload: seq<byte>, signers: seq<string>, setIndex: nat, keccak: Keccak, sign: Signer)
    returns (vm: string)
    requires ValidHeader(h) && setIndex < Pow(256, 4)
    requires data == "0x" + ToHex(payload) && |signers| <= 255
    ensures var body := Body(h, payload);
      vm == ToHex(Encoded(setIndex, Sigs(keccak, sign, signers, body), body))
  {
    var body := AbiWord(h.timestamp)[2 + (64 - 8)..]
      + AbiWord(h.nonce)[2 + (64 - 8)..]
      + AbiWord(h.chain)[2 + (64 - 4)..]
      + AbiBytes32(h.emitter)[2..]
      + AbiWord(h.sequence)[2 + (64 - 16)..]
      + AbiWord(h.consistency)[2 + (64 - 2)..]
      + data[2..];
    ghost var b := Body(h, payload);
    BodyHex(h, payload);
    assert body == ToHex(b);
    var hash := KeccakHex(keccak, KeccakHex(keccak, body));
    FromHexToHex(b);
    FromHexToHex(keccak(b));
    FromHexToHex(keccak(keccak(b)));
    ghost var sigs := Sigs(keccak, sign, signers, b);
    var signatures := "";
    for i := 0 to |signers|
      invariant signatures == ToHex(SigEntries(sigs[..i]))
    {
      var signature := sign(signers[i], FromHex(hash));
      assert signature == sigs[i];
      var r := ZeroPadBytes(HexOf(signature.r), 32);
      var s := ZeroPadBytes(HexOf(signature.s), 32);
      var packed := AbiWord(i)[2 + (64 - 2)..] + (r + s + AbiWord(signature.recovery)[2 + (64 - 2)..]);
      EntryHex(i, signature);
      assert sigs[..i + 1][..i] == sigs[..i];
      ToHexConcat(SigEntries(sigs[..i]), SigEntry(i, signature));
      signatures := signatures + packed;
    }
    assert sigs[..|signers|] == sigs;
    vm := AbiWord(1)[2 + (64 - 2)..] + AbiWord(setIndex)[2 + (64 - 8)..] + AbiWord(|signers|)[2 + (64 - 2)..]
      + signatures + body;
    VmHex(setIndex, sigs, b);
    StartHex(setIndex, |signers|);
  }

  /** The body, field by field, in hexadecimal. */
  lemma BodyHex(h: Header, payload: seq<byte>)
    ensures ToHex(Body(h, payload)) ==
            AbiWord(h.timestamp)[2 + (64 - 8)..] + AbiWord(h.nonce)[2 + (64 - 8)..] + AbiWord(h.chain)[2 + (64 - 4)..]
            + AbiBytes32(h.emitter)[2..] + AbiWord(h.sequence)[2 + (64 - 16)..]
            + AbiWord(h.consistency)[2 + (64 - 2)..] + ToHex(payload)
  {
    AbiTail(h.timestamp, 4);
    AbiTail(h.nonce, 4);
    AbiTail(h.chain, 2);
    AbiTail(h.sequence, 8);
    AbiTail(h.consistency, 1);
    var b1 := Bytes(h.timestamp, 4);
    var b2 := b1 + Bytes(h.nonce, 4);
    var b3 := b2 + Bytes(h.chain, 2);
    var b4 := b3 + h.emitter;
    var b5 := b4 + Bytes(h.sequence, 8);
    var b6 := b5 + Bytes(h.consistency, 1);
    ToHexConcat(b1, Bytes(h.nonce, 4));
    ToHexConcat(b2, Bytes(h.chain, 2));
    ToHexConcat(b3, h.emitter);
    ToHexConcat(b4, Bytes(h.sequence, 8));
    ToHexConcat(b5, Bytes(h.consistency, 1));
    ToHexConcat(b6, payload);
  }

  lemma EntryHex(i: byte, sig: Sig)
    ensures ToHex(SigEntry(i, sig)) ==
            AbiWord(i)[2 + (64 - 2)..]
            + (ZeroPad(HexOf(sig.r), 32) + ZeroPad(HexOf(sig.s), 32) + AbiWord(sig.recovery)[2 + (64 - 2)..])
  {
    AbiTail(i, 1);
    AbiTail(sig.recovery, 1);
    ZeroPadIsBytes(sig.r, 32);
    ZeroPadIsBytes(sig.s, 32);
    OneByte(i);
    ToHexConcat(Bytes(sig.r, 32), Bytes(sig.s, 32));
    ToHexConcat(Bytes(sig.r, 32) + Bytes(sig.s, 32), Bytes(sig.recovery, 1));
    ToHexConcat([i], Bytes(sig.r, 32) + Bytes(sig.s, 32) + Bytes(sig.recovery, 1));
  }

  lemma OneByte(b: byte)
    ensures Bytes(b, 1) == [b]
  {
    assert Fixed(256, b / 256, 0) == [];
  }

  lemma VmHex(setIndex: nat, sigs: seq<Sig>, body: seq<byte>)
    requires |sigs| <= 255
    ensures ToHex(Encoded(setIndex, sigs, body))
         == ToHex(Start(setIndex, |sigs|)) + ToHex(SigEntries(sigs)) + ToHex(body)
  {
    ToHexConcat(Start(setIndex, |sigs|), SigEntries(sigs));
    ToHexConcat(Start(setIndex, |sigs|) + SigEntries(sigs), body);
  }

  lemma StartHex(setIndex: nat, count: byte)
    ensures ToHex(Start(setIndex, count)) ==
            AbiWord(1)[2 + (64 - 2)..] + AbiWord(setIndex)[2 + (64 - 8)..] + AbiWord(count)[2 + (64 - 2)..]
  {
    var one: byte := 1;
    AbiTail(1, 1);
    AbiTail(setIndex, 4);
    AbiTail(count, 1);
    OneByte(one);
    OneByte(count);
    ToHexConcat([one], Bytes(setIndex, 4));
    ToHexConcat([one] + Bytes(setIndex, 4), [count]);
  }
}
