/** The chain-registration message, generated by two programs: one through ABI words, one by
    writing into uninitialised buffers. Both produce the same text for the same inputs. */
module RegisterChain {
  import opened Numerals
  import opened Text
  import opened Vaa

  /** "TokenBridge", left-padded to 32 bytes. */
  const MODULE: seq<byte> :=
    Zeros(21) + [0x54, 0x6f, 0x6b, 0x65, 0x6e, 0x42, 0x72, 0x69, 0x64, 0x67, 0x65]

  /** The governance contract: the number 4 in 32 bytes, on chain 1. */
  const GOVERNANCE: seq<byte> := Zeros(31) + [4]
  const GOVERNANCE_CHAIN := 1

  /** The key the buffer program always signs with. */
  const GUARDIAN_KEY := "cfb12303a19cde580bb4dd771639b0d26bc68353645571a8cff516ab2ee113a0"

  function Payload(chain: nat, contract: seq<byte>): seq<byte> {
    MODULE + [1] + Bytes(0, 2) + Bytes(chain, 2) + contract
  }

  function GovernanceHeader(sequence: nat): Header {
    Header(1, 1, GOVERNANCE_CHAIN, GOVERNANCE, sequence, 0)
  }

  /** The message both programs are meant to produce. */
  function RegisterVaa(
    chain: nat, contract: seq<byte>, sequence: nat, key: string, keccak: Keccak, sign: Signer): seq<byte>
  {
    var body := Body(GovernanceHeader(sequence), Payload(chain, contract));
    Encoded(0, Sigs(keccak, sign, [key], body), body)
  }

  /** The module's name, as text, in the last 11 of 32 bytes. */
  lemma ModuleName()
    ensures |MODULE| == 32 && (forall i :: 0 <= i < 21 ==> MODULE[i] == 0)
    ensures forall i :: 0 <= i < 11 ==> MODULE[21 + i] as char == "TokenBridge"[i]
  {
  }

  /** What both programs are to say, field by field: the governance contract, number 4 on
      chain 1, registers the contract for the chain, in message number `sequence`. */
  lemma RegistrationFields(chain: nat, contract: seq<byte>, sequence: nat)
    requires chain < Pow(256, 2) && |contract| == 32 && sequence < Pow(256, 8)
    ensures var b := Body(GovernanceHeader(sequence), Payload(chain, contract));
      |b| == 51 + 69 && Value(256, b[..4]) == 1 && Value(256, b[4..8]) == 1 && Value(256, b[8..10]) == 1
      && (forall i :: 0 <= i < 31 ==> b[10..42][i] == 0) && b[10..42][31] == 4
      && Value(256, b[42..50]) == sequence && b[50] == 0
      && b[51..][..32] == MODULE && b[51..][32] == 1 && b[51..][33..35] == [0, 0]
      && Value(256, b[51..][35..37]) == chain && b[51..][37..] == contract
  {
    SmallWidths();
    BodyFields(GovernanceHeader(sequence), Payload(chain, contract));
    PayloadFields(chain, contract);
  }

  lemma PayloadFields(chain: nat, contract: seq<byte>)
    requires chain < Pow(256, 2) && |contract| == 32
    ensures var p := Payload(chain, contract);
      |p| == 69 && p[..32] == MODULE && p[32] == 1 && p[33..35] == [0, 0] && Value(256, p[35..37]) == chain && p[37..] == contract
  {
    var p := Payload(chain, contract);
    assert p[..32] == MODULE && p[32] == 1 && p[33..35] == Bytes(0, 2) && p[35..37] == Bytes(chain, 2) && p[37..] == contract;
    ValueFixed(256, chain, 2);
    TwoZeros();
  }

  lemma TwoZeros()
    ensures Bytes(0, 2) == [0, 0]
  {
    assert Fixed(256, 0, 1) == Fixed(256, 0, 0) + [0] && Bytes(0, 2) == Fixed(256, 0, 1) + [0];
  }

  // ----- through ABI words -----

  /** The command's contract address is written with a leading "0x". */
  method GenerateRegisterChainVaa(
    chain: nat, contractAddress: string, guardianSecret: string, sequence: nat, keccak: Keccak, sign: Signer)
    returns (vm: string)
    requires chain < Pow(256, 2) && sequence < Pow(256, 8)
    requires |contractAddress| == 66 && contractAddress[..2] == "0x" && IsHex(contractAddress[2..])
    ensures vm == ToHex(RegisterVaa(chain, FromHex(contractAddress[2..]), sequence, guardianSecret, keccak, sign))
  {
    ghost var contract := FromHex(contractAddress[2..]);
    FromHexLength(contractAddress[2..]);
    var data := "0x"
      + (ToHex(MODULE) + "01" + "0000" + AbiWord(chain)[2 + (64 - 4)..] + AbiBytes32(FromHex(contractAddress[2..]))[2..]);
    PayloadHex(chain, contract);
    SmallWidths();
    vm := SignAndEncodeVM(GovernanceHeader(sequence), data, Payload(chain, contract), [guardianSecret], 0, keccak, sign);
  }

  lemma SmallWidths()
    ensures Pow(256, 4) > 1 && Pow(256, 2) > 1
  {
    assert Pow(256, 0) == 1 && Pow(256, 1) == 256 && Pow(256, 2) == 65536;
    PowMono(256, 2, 4);
  }

  lemma PayloadHex(chain: nat, contract: seq<byte>)
    ensures ToHex(Payload(chain, contract))
         == ToHex(MODULE) + "01" + "0000" + AbiWord(chain)[2 + (64 - 4)..] + ToHex(contract)
  {
    var one: seq<byte> := [1];
    AbiTail(chain, 2);
    Literals();
    ToHexConcat(MODULE, one);
    ToHexConcat(MODULE + one, Bytes(0, 2));
    ToHexConcat(MODULE + one + Bytes(0, 2), Bytes(chain, 2));
    ToHexConcat(MODULE + one + Bytes(0, 2) + Bytes(chain, 2), contract);
  }

  lemma Literals()
    ensures ToHex([1]) == "01" && ToHex(Bytes(0, 2)) == "0000"
  {
    LiteralOne();
    LiteralZeros();
  }

  lemma LiteralOne()
    ensures ToHex([1]) == "01"
  {
    var one: seq<byte> := [1];
    assert one[1..] == [];
    assert Nibbles(one) == [0, 1];
  }

  lemma LiteralZeros()
    ensures ToHex(Bytes(0, 2)) == "0000"
  {
    NibblesOfBytes(0, 2);
    ValueZeros(16, 4);
    FixedValue(16, Zeros(4));
    var z := Zeros(4);
    assert z == [0, 0, 0, 0];
  }

  // ----- in place -----

  /** Writes bytes at an offset, leaving the rest of the buffer alone. */
  method WriteBytes(buf: array<byte>, at: nat, bytes: seq<byte>)
    requires at + |bytes| <= buf.Length
    modifies buf
    ensures buf[..at + |bytes|] == old(buf[..at]) + bytes
    ensures buf[at + |bytes|..] == old(buf[at + |bytes|..])
  {
    for i := 0 to |bytes|
      invariant forall j :: 0 <= j < i ==> buf[at + j] == bytes[j]
      invariant forall j :: 0 <= j < at || at + i <= j < buf.Length ==> buf[j] == old(buf[j])
    {
      buf[at + i] := bytes[i];
    }
  }

  /** The 69-byte payload buffer. A fresh buffer holds arbitrary bytes, so that the result is
      determined shows that the writes leave no gap. */
  method WritePayload(chain: nat, contractAddress: string) returns (registerChain: array<byte>)
    requires |contractAddress| == 64 && IsHex(contractAddress)
    ensures fresh(registerChain) && registerChain.Length == 69
    ensures registerChain[..] == Payload(chain, FromHex(contractAddress))
  {
    registerChain := new byte[69];
    FromHexToHex(MODULE);
    FromHexLength(contractAddress);
    WriteBytes(registerChain, 0, FromHex(ToHex(MODULE)));
    assert registerChain[..32] == MODULE;
    WriteBytes(registerChain, 32, [1]);
    WriteBytes(registerChain, 33, Bytes(0, 2));
    WriteBytes(registerChain, 35, Bytes(chain, 2));
    WriteBytes(registerChain, 37, FromHex(contractAddress));
    assert registerChain[..] == registerChain[..69];
  }

  /** The 51-byte body header buffer. */
  method WriteBodyHeader(sequence: nat) returns (bodyHeader: array<byte>)
    ensures fresh(bodyHeader) && bodyHeader.Length == 51
    ensures bodyHeader[..] == Body(GovernanceHeader(sequence), [])
  {
    bodyHeader := new byte[51];
    FromHexToHex(GOVERNANCE);
    WriteBodyStart(bodyHeader);
    WriteBytes(bodyHeader, 10, FromHex(ToHex(GOVERNANCE)));
    WriteBytes(bodyHeader, 42, Bytes(sequence, 8));
    WriteBytes(bodyHeader, 50, Bytes(0, 1));
    assert bodyHeader[..] == bodyHeader[..51];
  }

  /** Timestamp, nonce and chain. */
  method WriteBodyStart(bodyHeader: array<byte>)
    requires bodyHeader.Length == 51
    modifies bodyHeader
    ensures bodyHeader[..10] == Bytes(1, 4) + Bytes(1, 4) + Bytes(GOVERNANCE_CHAIN, 2)
  {
    FromHexToHex(Bytes(1, 4));
    WriteBytes(bodyHeader, 0, Bytes(1, 4));
    assert bodyHeader[..4] == Bytes(1, 4);
    WriteBytes(bodyHeader, 4, FromHex(ToHex(Bytes(1, 4))));
    WriteBytes(bodyHeader, 8, Bytes(GOVERNANCE_CHAIN, 2));
  }

  /** r, s and the recovery bit, each padded with zeros. */
  function PackSignature(sig: Sig): string {
    ZeroPad(HexOf(sig.r), 32) + ZeroPad(HexOf(sig.s), 32) + ZeroPad(HexOf(sig.recovery), 1)
  }

  lemma PackedBytes(sig: Sig)
    ensures FromHex(PackSignature(sig)) == Bytes(sig.r, 32) + Bytes(sig.s, 32) + Bytes(sig.recovery, 1)
  {
    ZeroPadIsBytes(sig.r, 32);
    ZeroPadIsBytes(sig.s, 32);
    assert Pow(256, 0) == 1 && Pow(256, 1) == 256;
    ZeroPadIsBytes(sig.recovery, 1);
    ToHexConcat(Bytes(sig.r, 32), Bytes(sig.s, 32));
    ToHexConcat(Bytes(sig.r, 32) + Bytes(sig.s, 32), Bytes(sig.recovery, 1));
    FromHexToHex(Bytes(sig.r, 32) + Bytes(sig.s, 32) + Bytes(sig.recovery, 1));
  }

  /** The 72-byte message header buffer, with one signature. */
  method WriteVaaHeader(sig: Sig) returns (vaaHeader: array<byte>)
    ensures fresh(vaaHeader) && vaaHeader.Length == 72
    ensures vaaHeader[..] == Start(0, 1) + SigEntry(0, sig)
  {
    vaaHeader := new byte[72];
    PackedBytes(sig);
    WriteStart(vaaHeader);
    ghost var packed := Bytes(sig.r, 32) + Bytes(sig.s, 32) + Bytes(sig.recovery, 1);
    WriteBytes(vaaHeader, 6, [0]);
    WriteBytes(vaaHeader, 7, FromHex(PackSignature(sig)));
    assert vaaHeader[..] == vaaHeader[..72];
    OneEntry(sig, packed);
  }

  lemma OneEntry(sig: Sig, packed: seq<byte>)
    requires packed == Bytes(sig.r, 32) + Bytes(sig.s, 32) + Bytes(sig.recovery, 1)
    ensures Start(0, 1) + [0] + packed == Start(0, 1) + SigEntry(0, sig)
  {
    assert Start(0, 1) + [0] + packed == Start(0, 1) + ([0] + packed);
  }

  method WriteStart(vaaHeader: array<byte>)
    requires vaaHeader.Length == 72
    modifies vaaHeader
    ensures vaaHeader[..6] == Start(0, 1)
  {
    WriteBytes(vaaHeader, 0, [1]);
    assert vaaHeader[..1] == [1];
    WriteBytes(vaaHeader, 1, Bytes(0, 4));
    WriteBytes(vaaHeader, 5, [1]);
  }

  /** Encoder equivalence: the buffer program produces what the ABI-word program produces for
      the same chain and contract (there with a leading "0x"), sequence 0 and the development
      key. */
  method RegisterTo(chain: nat, contractAddress: string, keccak: Keccak, sign: Signer) returns (text: string)
    requires chain < Pow(256, 2) && |contractAddress| == 64 && IsHex(contractAddress)
    ensures text == ToHex(RegisterVaa(chain, FromHex(contractAddress), 0, GUARDIAN_KEY, keccak, sign))
  {
    var registerChain := WritePayload(chain, contractAddress);
    var bodyHeader := WriteBodyHeader(0);
    var body := bodyHeader[..] + registerChain[..];
    ghost var b := Body(GovernanceHeader(0), Payload(chain, FromHex(contractAddress)));
    assert body == b by {
      assert Body(GovernanceHeader(0), []) + Payload(chain, FromHex(contractAddress)) == b;
    }
    var hash := KeccakHex(keccak, KeccakHex(keccak, ToHex(body)));
    FromHexToHex(body);
    FromHexToHex(keccak(body));
    FromHexToHex(keccak(keccak(body)));
    var signature := sign(GUARDIAN_KEY, FromHex(hash));
    var vaaHeader := WriteVaaHeader(signature);
    text := ToHex(vaaHeader[..] + body);
    OneSignature(keccak, sign, b);
  }

  lemma OneSignature(keccak: Keccak, sign: Signer, body: seq<byte>)
    ensures var sig := sign(GUARDIAN_KEY, keccak(keccak(body)));
      Encoded(0, Sigs(keccak, sign, [GUARDIAN_KEY], body), body) == Start(0, 1) + SigEntry(0, sig) + body
  {
    var sigs := Sigs(keccak, sign, [GUARDIAN_KEY], body);
    assert sigs[..0] == [];
    assert SigEntries(sigs) == SigEntry(0, sigs[0]);
  }
}
