/** The recent-rows query: find each emitter's highest sequence by scanning keys in order,
    then ask for the range of rows that ends there. */
module Recent {
  import opened Options
  import opened Numerals
  import opened Text
  import opened RowKeys

  /** The key of the grouping map: chain and address. */
  function GroupOf(k: Key): string {
    Decimal(k.chain) + ":" + ToHex(k.address)
  }

  lemma GroupNamesEmitter(k: Key, k': Key)
    ensures GroupOf(k) == GroupOf(k') <==> SameEmitter(k, k')
  {
    if GroupOf(k) == GroupOf(k') {
      assert EmitterPrefix(k.chain, k.address) == GroupOf(k) + ":";
      assert EmitterPrefix(k'.chain, k'.address) == GroupOf(k') + ":";
      MakeRowKeyInjective(k.(sequence := 0), k'.(sequence := 0));
    }
  }

  /** Keys as the table delivers them: in dictionary order. */
  ghost predicate Delivered(keys: seq<string>, ks: seq<Key>) {
    |keys| == |ks|
    && (forall i :: 0 <= i < |ks| ==> keys[i] == MakeRowKey(ks[i]))
    && forall i, j :: 0 <= i < j < |ks| ==> LexBelow(keys[i], keys[j])
  }

  /** Among the first `n` parts, `j` is the last one of its group. */
  ghost predicate LastOfGroup(parts: seq<(string, string)>, n: nat, j: nat) {
    j < n <= |parts| && forall m :: j < m < n ==> parts[m].0 != parts[j].0
  }

  /** Overwriting entries in order leaves each group's last one. */
  method Overwrite(parts: seq<(string, string)>) returns (latest: map<string, string>)
    ensures forall i :: 0 <= i < |parts| ==> parts[i].0 in latest
    ensures forall g <- latest :: exists j: nat :: LastOfGroup(parts, |parts|, j) && parts[j] == (g, latest[g])
  {
    latest := map[];
    ghost var at: map<string, nat> := map[];
    for i := 0 to |parts|
      invariant forall m :: 0 <= m < i ==> parts[m].0 in latest
      invariant at.Keys == latest.Keys
      invariant forall g <- latest :: LastOfGroup(parts, i, at[g]) && parts[at[g]] == (g, latest[g])
    {
      latest := latest[parts[i].0 := parts[i].1];
      at := at[parts[i].0 := i];
    }
  }

  function PartsOf(k: Key): (string, string) {
    (GroupOf(k), PadDecimal(k.sequence, WIDTH))
  }

  /** Splits a key into its group and its padded sequence. */
  method SplitKey(key: string, ghost k: Key) returns (parts: (string, string))
    requires key == MakeRowKey(k)
    ensures parts == PartsOf(k)
  {
    SplitMadeKey(k);
    var keyParts := Split(key);
    parts := (keyParts[0] + ":" + keyParts[1], keyParts[2]);
  }

  /** No key of the same emitter has a higher sequence than `j`. */
  ghost predicate Highest(ks: seq<Key>, j: nat)
    requires j < |ks|
  {
    forall m: nat :: m < |ks| && SameEmitter(ks[m], ks[j]) ==> ks[m].sequence <= ks[j].sequence
  }

  /** Every other key of the same emitter sorts before `j`. */
  ghost predicate LastInOrder(ks: seq<Key>, j: nat)
    requires j < |ks|
  {
    forall m: nat :: m < |ks| && m != j && SameEmitter(ks[m], ks[j]) ==> LexBelow(MakeRowKey(ks[m]), MakeRowKey(ks[j]))
  }

  /** The scan ends at each emitter's last key in dictionary order, for any sequences. */
  method LatestOfEachEmitter(keys: seq<string>, ghost ks: seq<Key>) returns (latest: map<string, string>)
    requires Delivered(keys, ks)
    ensures forall i :: 0 <= i < |ks| ==> PartsOf(ks[i]).0 in latest
    ensures forall g <- latest :: exists j: nat :: j < |ks| && PartsOf(ks[j]) == (g, latest[g]) && LastInOrder(ks, j)
  {
    var parts: seq<(string, string)> := [];
    for i := 0 to |keys|
      invariant |parts| == i && forall m :: 0 <= m < i ==> parts[m] == PartsOf(ks[m])
    {
      var p := SplitKey(keys[i], ks[i]);
      parts := parts + [p];
    }
    latest := Overwrite(parts);
    assert forall i :: 0 <= i < |ks| ==> PartsOf(ks[i]) == parts[i];
    forall g <- latest ensures exists j: nat :: j < |ks| && PartsOf(ks[j]) == (g, latest[g]) && LastInOrder(ks, j) {
      var j: nat :| LastOfGroup(parts, |parts|, j) && parts[j] == (g, latest[g]);
      forall m: nat | m < |ks| && m != j && SameEmitter(ks[m], ks[j])
        ensures LexBelow(MakeRowKey(ks[m]), MakeRowKey(ks[j]))
      {
        assert j < m ==> parts[m].0 != parts[j].0;
        GroupNamesEmitter(ks[m], ks[j]);
        assert LexBelow(keys[m], keys[j]);
      }
      assert LastInOrder(ks, j);
    }
  }

  ghost predicate UpTo(ks: seq<Key>, bound: nat) {
    forall k <- ks :: k.sequence <= bound
  }

  /** The last key in dictionary order is the one with the highest sequence, whatever rows
      there are with sequences up to a bound, if and only if the bound is below 10^16. */
  lemma LastIsHighestIff(bound: nat)
    ensures (forall ks: seq<Key>, j: nat | j < |ks| && UpTo(ks, bound) && LastInOrder(ks, j) :: Highest(ks, j))
       <==> bound < LIMIT
  {
    if bound < LIMIT {
      forall ks: seq<Key>, j: nat | j < |ks| && UpTo(ks, bound) && LastInOrder(ks, j) ensures Highest(ks, j) {
        LastIsHighest(ks, j, bound);
      }
    } else {
      var ks := [Key(1, [], LIMIT), Key(1, [], HIGH)];
      LastIsNotHighest();
      assert UpTo(ks, bound) && LastInOrder(ks, 1) && !Highest(ks, 1);
    }
  }

  lemma LastIsHighest(ks: seq<Key>, j: nat, bound: nat)
    requires bound < LIMIT && j < |ks| && UpTo(ks, bound) && LastInOrder(ks, j)
    ensures Highest(ks, j)
  {
    forall m: nat | m < |ks| && SameEmitter(ks[m], ks[j]) ensures ks[m].sequence <= ks[j].sequence {
      assert ks[m] in ks && ks[j] in ks;
      EmitterOrder(ks[m], ks[j]);
    }
  }

  lemma LastIsNotHighest()
    ensures var ks := [Key(1, [], LIMIT), Key(1, [], HIGH)];
      HIGH < LIMIT && LastInOrder(ks, 1) && !Highest(ks, 1)
  {
    var ks := [Key(1, [], LIMIT), Key(1, [], HIGH)];
    OrderFailsAtLimit();
    LexPrefix(EmitterPrefix(1, []), PadDecimal(LIMIT, WIDTH), PadDecimal(HIGH, WIDTH));
    assert ks[0].sequence > ks[1].sequence && SameEmitter(ks[0], ks[1]);
  }

  /** Sequence numbers have 64 bits. */
  const U64 := 0x1_0000_0000_0000_0000

  function Lowest(high: nat, n: nat): nat {
    if high < n then 0 else high - n
  }

  /** The end of the range, one above the highest sequence unless that wraps around. */
  function EndOf(high: nat): nat {
    (high + 1) % U64
  }

  /** The range holds exactly the rows within `n` of the highest, while sequences are short
      enough. */
  lemma RangeHolds(e: Key, n: nat)
    requires e.sequence < U64
    ensures e.sequence + 1 < LIMIT ==>
              forall k: Key | SameEmitter(k, e) ==> k.sequence <= e.sequence :: WithinOf(e, n, k)
  {
    RecentRowsExactIff(e);
    if e.sequence + 1 < LIMIT {
      forall k: Key | SameEmitter(k, e) ==> k.sequence <= e.sequence ensures WithinOf(e, n, k) {
        assert RecentRight(e, n, k);
      }
    }
  }

  ghost predicate Holds(range: (string, string), k: Key) {
    InRange(MakeRowKey(k), range.0, range.1)
  }

  ghost predicate WithinOf(e: Key, n: nat, k: Key) {
    Holds((MakeRowKey(e.(sequence := Lowest(e.sequence, n))), MakeRowKey(e.(sequence := EndOf(e.sequence)))), k)
    <==> SameEmitter(k, e) && e.sequence - k.sequence <= n
  }

  /** The range of one emitter. The result is `None` only in the branch for sequences that
      are not in order, which is never taken; the subtraction never goes below zero. */
  method RangeOf(e: Key, highest: string, numRowsToFetch: nat) returns (range: Option<(string, string)>)
    requires highest == PadDecimal(e.sequence, WIDTH) && e.sequence < U64
    ensures range == Some((MakeRowKey(e.(sequence := Lowest(e.sequence, numRowsToFetch))),
                           MakeRowKey(e.(sequence := EndOf(e.sequence)))))
    ensures e.sequence + 1 < LIMIT ==>
              forall k: Key | SameEmitter(k, e) ==> k.sequence <= e.sequence ::
                Holds(range.value, k) <==> SameEmitter(k, e) && e.sequence - k.sequence <= numRowsToFetch
  {
    var numRows := numRowsToFetch;
    var highSequence := ParseDecimal(highest);
    ParsePadded(e.sequence, WIDTH);
    if highSequence < numRows {
      numRows := highSequence;
    }
    var lowSequence: nat := highSequence - numRows;
    var start := Decimal(e.chain) + ":" + (ToHex(e.address) + ":") + PadDecimal(lowSequence, WIDTH);
    var end := Decimal(e.chain) + ":" + (ToHex(e.address) + ":") + PadDecimal((highSequence + 1) % U64, WIDTH);
    if highSequence >= lowSequence {
      range := Some((start, end));
      RangeHolds(e, numRowsToFetch);
    } else {
      range := None;
    }
  }

  /** The range asked for holds exactly the emitter's rows within `n` of its highest. */
  ghost predicate RecentRight(e: Key, n: nat, k: Key) {
    InRange(MakeRowKey(k), MakeRowKey(e.(sequence := Lowest(e.sequence, n))), MakeRowKey(e.(sequence := EndOf(e.sequence))))
    <==> SameEmitter(k, e) && k.sequence <= e.sequence && e.sequence - k.sequence <= n
  }

  /** Scan and range together: whatever number of rows is asked for and whatever other rows
      there are, exactly the emitter's rows within that number of its highest are returned,
      if and only if the highest sequence is below 10^16 - 1. */
  lemma RecentRowsExactIff(e: Key)
    requires e.sequence < U64
    ensures (forall n: nat, k: Key | SameEmitter(k, e) ==> k.sequence <= e.sequence :: RecentRight(e, n, k))
       <==> e.sequence + 1 < LIMIT
  {
    if e.sequence + 1 < LIMIT {
      forall n: nat, k: Key | SameEmitter(k, e) ==> k.sequence <= e.sequence ensures RecentRight(e, n, k) {
        RecentRowsExact(e, n, k);
      }
    } else {
      var n, k := RecentRowMissed(e);
      assert !RecentRight(e, n, k);
    }
  }

  lemma LimitFits()
    ensures LIMIT < U64
  {
    assert Pow(10, 2) == 100;
    assert Pow(10, 4) == 100 * Pow(10, 2) && Pow(10, 6) == 100 * Pow(10, 4) && Pow(10, 8) == 100 * Pow(10, 6);
    assert Pow(10, 10) == 100 * Pow(10, 8) && Pow(10, 12) == 100 * Pow(10, 10);
    assert Pow(10, 14) == 100 * Pow(10, 12) && Pow(10, 16) == 100 * Pow(10, 14);
  }

  lemma RecentRowsExact(e: Key, n: nat, k: Key)
    requires e.sequence + 1 < LIMIT && (SameEmitter(k, e) ==> k.sequence <= e.sequence)
    ensures RecentRight(e, n, k)
  {
    EndBelowLimit(e.sequence);
    RangeExact(e, Lowest(e.sequence, n), e.sequence, k);
  }

  lemma TopRowMissed(e: Key)
    requires e.sequence + 1 == LIMIT
    ensures HIGH <= e.sequence && !RecentRight(e, e.sequence - HIGH, e.(sequence := HIGH))
  {
    TopOfRangeFails(e);
    EndBelowLimit(e.sequence);
    SelectsMeans(e, e.sequence - HIGH, HIGH, LIMIT, e.(sequence := HIGH));
  }

  lemma EndBelowLimit(high: nat)
    requires high < LIMIT
    ensures EndOf(high) == high + 1
  {
    LimitFits();
  }

  lemma SelectsMeans(e: Key, n: nat, low: nat, end: nat, k: Key)
    requires low == Lowest(e.sequence, n) && end == EndOf(e.sequence)
    ensures RecentRight(e, n, k) <==> Selects(e, low, e.sequence, end, k)
  {
  }

  lemma LimitRowMissed(e: Key)
    requires e.sequence >= LIMIT
    ensures HIGH <= e.sequence && !RecentRight(e, e.sequence - HIGH, e.(sequence := LIMIT))
  {
    LimitSortsLow(e, e.sequence, EndOf(e.sequence));
    SelectsMeans(e, e.sequence - HIGH, HIGH, EndOf(e.sequence), e.(sequence := LIMIT));
  }

  /** From 10^16 - 1 on, some number of rows asked for misses one of them. */
  lemma RecentRowMissed(e: Key) returns (n: nat, k: Key)
    requires LIMIT <= e.sequence + 1 <= U64
    ensures SameEmitter(k, e) && k.sequence <= e.sequence && !RecentRight(e, n, k)
  {
    if e.sequence + 1 == LIMIT {
      TopRowMissed(e);
      n, k := e.sequence - HIGH, e.(sequence := HIGH);
    } else {
      LimitRowMissed(e);
      n, k := e.sequence - HIGH, e.(sequence := LIMIT);
    }
  }
}
