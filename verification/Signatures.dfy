/** The parser of a stored signature list: a count byte, then entries of 66 bytes. */
module Signatures {
  import opened Text
  import opened Vaa

  datatype Signature = Signature(index: byte, data: seq<byte>)

  datatype Result =
    | Ok(signatures: seq<Signature>)
    | NoCount
    | NoIndex(entry: nat)
    | ShortSignature(entry: nat)

  const ENTRY := 66

  function EntryAt(value: seq<byte>, i: nat): Signature
    requires 1 + ENTRY * (i + 1) <= |value|
  {
    Signature(value[1 + ENTRY * i], value[2 + ENTRY * i..1 + ENTRY * (i + 1)])
  }

  /** What parsing yields: all entries if they are there, otherwise the first that is not. */
  function Parsed(value: seq<byte>): Result {
    if |value| == 0 then NoCount
    else
      var have := (|value| - 1) / ENTRY;
      if have >= value[0] then Ok(seq(value[0], i requires 0 <= i < value[0] => EntryAt(value, i)))
      else if (|value| - 1) % ENTRY == 0 then NoIndex(have)
      else ShortSignature(have)
  }

  method ParseSignatures(value: seq<byte>) returns (r: Result)
    ensures r == Parsed(value)
  {
    if |value| == 0 {
      return NoCount;
    }
    var lenSignatures := value[0];
    var pos := 1;
    var signatures: seq<Signature> := [];
    for i := 0 to lenSignatures
      invariant pos == 1 + ENTRY * i <= |value|
      invariant |signatures| == i && forall j :: 0 <= j < i ==> signatures[j] == EntryAt(value, j)
    {
      if pos >= |value| {
        return NoIndex(i);
      }
      var index := value[pos];
      pos := pos + 1;
      if pos + 65 > |value| {
        return ShortSignature(i);
      }
      signatures := signatures + [Signature(index, value[pos..pos + 65])];
      pos := pos + 65;
    }
    return Ok(signatures);
  }

  /** Which error is reported: no count for no bytes, otherwise the first entry that is not
      there, without its index byte or with too few bytes after it. */
  lemma ErrorsMean(value: seq<byte>, i: nat)
    ensures Parsed(value) == NoCount <==> |value| == 0
    ensures Parsed(value) == NoIndex(i) <==> |value| > 0 && i < value[0] && |value| == 1 + 66 * i
    ensures Parsed(value) == ShortSignature(i) <==> |value| > 0 && i < value[0] && 1 + 66 * i < |value| < 1 + 66 * (i + 1)
    ensures Parsed(value).Ok? <==> |value| > 0 && |value| >= 1 + 66 * (value[0] as nat)
  {
  }

  /** The list an encoder writes. */
  function Section(sigs: seq<Sig>): seq<byte>
    requires |sigs| <= 255
  {
    [|sigs|] + SigEntries(sigs)
  }

  function SignatureBytes(sig: Sig): (s: seq<byte>)
    ensures |s| == 65
  {
    Bytes(sig.r, 32) + Bytes(sig.s, 32) + Bytes(sig.recovery, 1)
  }

  lemma {:induction false} EntrySlice(sigs: seq<Sig>, i: nat)
    requires i < |sigs| <= 255
    ensures SigEntries(sigs)[ENTRY * i..ENTRY * (i + 1)] == SigEntry(i, sigs[i])
  {
    var n := |sigs| - 1;
    var init := SigEntries(sigs[..n]);
    assert SigEntries(sigs) == init + SigEntry(n, sigs[n]);
    if i == n {
      assert (init + SigEntry(n, sigs[n]))[|init|..] == SigEntry(n, sigs[n]);
    } else {
      EntrySlice(sigs[..n], i);
      assert (init + SigEntry(n, sigs[n]))[ENTRY * i..ENTRY * (i + 1)] == init[ENTRY * i..ENTRY * (i + 1)];
    }
  }

  lemma EntryBack(sigs: seq<Sig>, extra: seq<byte>, i: nat)
    requires i < |sigs| <= 255
    ensures EntryAt(Section(sigs) + extra, i) == Signature(i, SignatureBytes(sigs[i]))
  {
    var v := Section(sigs) + extra;
    EntrySlice(sigs, i);
    var e := SigEntry(i, sigs[i]);
    assert v[1 + ENTRY * i..1 + ENTRY * (i + 1)] == e;
    assert v[1 + ENTRY * i] == v[1 + ENTRY * i..1 + ENTRY * (i + 1)][0];
    assert v[2 + ENTRY * i..1 + ENTRY * (i + 1)] == v[1 + ENTRY * i..1 + ENTRY * (i + 1)][1..];
    assert e[1..] == SignatureBytes(sigs[i]);
  }

  /** Round trip: parsing recovers every index and every 65-byte signature, ignoring whatever
      follows; every strict prefix of the list is rejected. */
  lemma SectionRoundTrip(sigs: seq<Sig>, extra: seq<byte>)
    requires |sigs| <= 255
    ensures var r := Parsed(Section(sigs) + extra);
      r.Ok? && |r.signatures| == |sigs|
      && forall i :: 0 <= i < |sigs| ==> r.signatures[i] == Signature(i, SignatureBytes(sigs[i]))
    ensures forall n :: 0 <= n < |Section(sigs)| ==> !Parsed(Section(sigs)[..n]).Ok?
  {
    forall i | 0 <= i < |sigs| ensures EntryAt(Section(sigs) + extra, i) == Signature(i, SignatureBytes(sigs[i])) {
      EntryBack(sigs, extra, i);
    }
    forall n | 0 <= n < |Section(sigs)| ensures !Parsed(Section(sigs)[..n]).Ok? {
      if n > 0 {
        assert Section(sigs)[..n][0] == |sigs|;
      }
    }
  }

  /** The list inside an encoded message starts at byte five. */
  lemma SignaturesOfMessage(setIndex: nat, sigs: seq<Sig>, body: seq<byte>)
    requires |sigs| <= 255
    ensures |Encoded(setIndex, sigs, body)| >= 5
    ensures Encoded(setIndex, sigs, body)[5..] == Section(sigs) + body
    ensures Parsed(Encoded(setIndex, sigs, body)[5..]).Ok?
  {
    assert Encoded(setIndex, sigs, body) == ([1] + Bytes(setIndex, 4)) + (Section(sigs) + body);
    SectionRoundTrip(sigs, body);
  }
}
