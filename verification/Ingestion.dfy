/** What the rows hold after any run of deliveries, told by the deliveries alone: whatever is
    duplicated or reordered, the first one that can be saved is what a row shows. */
module Ingestion {
  import opened Options
  import opened Numerals
  import opened Text
  import opened RowKeys
  import opened TransferAmount
  import opened Pipeline

  // ----- which deliveries are saved, and as what -----

  /** The delivery can be saved to the row of `k` as a payload of family `f`: a decodable token
      transfer or asset metadata from a token bridge, or an NFT transfer from an NFT bridge,
      with what had to be looked up found. */
  predicate Saves(e: Emitters, f: Family, k: Key, a: Action) {
    a.DeliverVaa? && a.m.key == k && a.m.payload != [] &&
    match f
    case TransferPayload =>
      IsTokenBridge(e, k) && a.m.payload[0] == 1 && |a.m.payload| >= 101 && a.world.receiver.Some?
    case AssetMetaPayload => IsTokenBridge(e, k) && a.m.payload[0] == 2 && a.world.meta.Some?
    case NftPayload =>
      !IsTokenBridge(e, k) && ToHex(k.address) in e.nfts && a.m.payload[0] == 1
      && a.world.nft.Some? && a.world.receiver.Some?
    case _ => false
  }

  /** The row's columns of the family are exactly these. */
  ghost predicate Columns(cells: Cells, f: Family, names: set<string>) {
    forall x :: (f, x) in cells <==> x in names
  }

  /** The row shows the transfer: every column is what the payload has at its place. */
  ghost predicate ShowsTransfer(cells: Cells, payload: seq<byte>, world: World)
    requires |payload| >= 101
  {
    Columns(cells, TransferPayload, {"PayloadId", "Amount", "OriginAddress", "OriginChain", "TargetAddress", "TargetChain"})
    && cells[(TransferPayload, "PayloadId")] == Decimal(payload[0])
    && cells[(TransferPayload, "Amount")]
       == (if Value(256, payload[17..25]) == 0 then Decimal(Value(256, payload[25..33])) else world.rawAmount)
    && cells[(TransferPayload, "OriginAddress")] == ToHex(payload[33..65])
    && cells[(TransferPayload, "OriginChain")] == Decimal(Value(256, payload[65..67]))
    && cells[(TransferPayload, "TargetAddress")] == ToHex(payload[67..99])
    && cells[(TransferPayload, "TargetChain")] == Decimal(Value(256, payload[99..101]))
    && (ChainDetails, "ReceiverAddress") in cells && Some(cells[(ChainDetails, "ReceiverAddress")]) == world.receiver
  }

  /** The row shows given columns of a family, and the payload's first byte. */
  ghost predicate ShowsColumns(cells: Cells, f: Family, columns: map<string, string>, payload: seq<byte>)
    requires payload != []
  {
    Columns(cells, f, columns.Keys + {"PayloadId"})
    && cells[(f, "PayloadId")] == Decimal(payload[0])
    && forall x <- columns :: x != "PayloadId" ==> cells[(f, x)] == columns[x]
  }

  ghost predicate Shows(f: Family, cells: Cells, a: Action) {
    a.DeliverVaa? && a.m.payload != [] &&
    match f
    case TransferPayload => |a.m.payload| >= 101 && ShowsTransfer(cells, a.m.payload, a.world)
    case AssetMetaPayload => a.world.meta.Some? && ShowsColumns(cells, f, a.world.meta.value, a.m.payload)
    case NftPayload =>
      a.world.nft.Some? && ShowsColumns(cells, f, a.world.nft.value, a.m.payload)
      && (ChainDetails, "ReceiverAddress") in cells && Some(cells[(ChainDetails, "ReceiverAddress")]) == a.world.receiver
    case _ => false
  }

  // ----- one delivery -----

  /** A guarded mutation, as each row sees it. */
  lemma GuardedRow(s: State, k: Key, guard: Cell, cells: Cells, other: Key)
    ensures CellsOf(Guarded(s, MakeRowKey(k), guard, cells), MakeRowKey(other))
         == if other == k && guard !in CellsOf(s, MakeRowKey(k)) then CellsOf(s, MakeRowKey(k)) + cells
            else CellsOf(s, MakeRowKey(other))
  {
    MakeRowKeyInjective(k, other);
  }

  /** The row's cells of one family, and its receiver, are as they were. */
  ghost predicate SamePart(f: Family, before: Cells, after: Cells) {
    (forall x :: ((f, x) in after <==> (f, x) in before) && ((f, x) in before ==> after[(f, x)] == before[(f, x)]))
    && (RECEIVER in before ==> RECEIVER in after && after[RECEIVER] == before[RECEIVER])
  }

  /** What a delivery does to a row, as far as one family goes. */
  ghost predicate StepSeen(e: Emitters, f: Family, k: Key, before: Cells, a: Action, after: Cells) {
    if (f, PAYLOAD_ID) !in before && Saves(e, f, k, a) then (f, PAYLOAD_ID) in after && Shows(f, after, a)
    else SamePart(f, before, after)
  }

  predicate IsPayload(f: Family) {
    f == TransferPayload || f == AssetMetaPayload || f == NftPayload
  }

  lemma VaaSeen(e: Emitters, f: Family, s: State, m: Message, w: World, k: Key)
    requires Inv(e, s) && IsPayload(f)
    ensures StepSeen(e, f, k, CellsOf(s, MakeRowKey(k)), DeliverVaa(m, w), CellsOf(ProcessVaa(e, s, m, w), MakeRowKey(k)))
  {
    assert RowOk(e, k, CellsOf(s, MakeRowKey(k)));
    if m.payload != [] {
      if IsTokenBridge(e, m.key) {
        if m.payload[0] == 1 {
          if Decoded(m.payload).Ok? && w.receiver.Some? { TransferSeen(e, f, s, m, w, k); }
        } else if m.payload[0] == 2 && w.meta.Some? {
          MetaSeen(e, f, s, m, w, k);
        }
      } else if ToHex(m.key.address) in e.nfts && m.payload[0] == 1 && w.nft.Some? && w.receiver.Some? {
        NftSeen(e, f, s, m, w, k);
      }
    }
  }

  lemma TransferSeen(e: Emitters, f: Family, s: State, m: Message, w: World, k: Key)
    requires IsPayload(f) && RowOk(e, k, CellsOf(s, MakeRowKey(k)))
    requires IsTokenBridge(e, m.key) && m.payload != [] && m.payload[0] == 1 && Decoded(m.payload).Ok? && w.receiver.Some?
    ensures StepSeen(e, f, k, CellsOf(s, MakeRowKey(k)), DeliverVaa(m, w), CellsOf(ProcessVaa(e, s, m, w), MakeRowKey(k)))
  {
    var t := Decoded(m.payload).value;
    var cells := InFamily(TransferPayload, TransferColumns(t, w.rawAmount))[RECEIVER := w.receiver.value];
    var before := CellsOf(s, MakeRowKey(k));
    TransferWritten(e, s, m, w, cells, k);
    if k == m.key && (TransferPayload, PAYLOAD_ID) !in before {
      if f == TransferPayload {
        NoneYet(e, k, before, TransferPayload);
        TransferShown(before, cells, m.payload, w);
      } else {
        OtherPart(f, before, cells);
      }
    }
  }

  lemma TransferWritten(e: Emitters, s: State, m: Message, w: World, cells: Cells, k: Key)
    requires IsTokenBridge(e, m.key) && m.payload != [] && m.payload[0] == 1 && Decoded(m.payload).Ok? && w.receiver.Some?
    requires cells == InFamily(TransferPayload, TransferColumns(Decoded(m.payload).value, w.rawAmount))[RECEIVER := w.receiver.value]
    ensures CellsOf(ProcessVaa(e, s, m, w), MakeRowKey(k))
         == if k == m.key && (TransferPayload, PAYLOAD_ID) !in CellsOf(s, MakeRowKey(k)) then CellsOf(s, MakeRowKey(k)) + cells
            else CellsOf(s, MakeRowKey(k))
  {
    GuardedRow(s, m.key, (TransferPayload, PAYLOAD_ID), cells, k);
    var s' := Guarded(s, MakeRowKey(m.key), (TransferPayload, PAYLOAD_ID), cells);
    assert CellsOf(ProcessVaa(e, s, m, w), MakeRowKey(k)) == CellsOf(s', MakeRowKey(k));
  }

  /** A row without a family's guard has none of its columns. */
  lemma NoneYet(e: Emitters, k: Key, before: Cells, f: Family)
    requires RowOk(e, k, before) && IsPayload(f) && (f, PAYLOAD_ID) !in before
    ensures forall x :: (f, x) !in before
  {
    forall x ensures (f, x) !in before {
      assert (f, x) in before ==> GuardOf((f, x).0) in before;
    }
  }

  lemma TransferShown(before: Cells, cells: Cells, payload: seq<byte>, w: World)
    requires forall x :: (TransferPayload, x) !in before
    requires Decoded(payload).Ok? && w.receiver.Some?
    requires cells == InFamily(TransferPayload, TransferColumns(Decoded(payload).value, w.rawAmount))[RECEIVER := w.receiver.value]
    ensures ShowsTransfer(before + cells, payload, w)
  {
    var columns := TransferColumns(Decoded(payload).value, w.rawAmount);
    ColumnsOfPayload(payload, w.rawAmount);
    var after := before + cells;
    assert forall x :: (TransferPayload, x) in after <==> x in columns;
    assert forall x <- columns :: after[(TransferPayload, x)] == columns[x];
  }

  /** The columns have different names, and each has its value. */
  lemma ColumnsOfPayload(payload: seq<byte>, raw: string)
    requires Decoded(payload).Ok?
    ensures var columns := TransferColumns(Decoded(payload).value, raw);
      columns.Keys == {"PayloadId", "Amount", "OriginAddress", "OriginChain", "TargetAddress", "TargetChain"}
      && columns["PayloadId"] == Decimal(payload[0])
      && columns["Amount"] == (if Value(256, payload[17..25]) == 0 then Decimal(Value(256, payload[25..33])) else raw)
      && columns["OriginAddress"] == ToHex(payload[33..65]) && columns["OriginChain"] == Decimal(Value(256, payload[65..67]))
      && columns["TargetAddress"] == ToHex(payload[67..99]) && columns["TargetChain"] == Decimal(Value(256, payload[99..101]))
  {
    assert |"PayloadId"| == 9 && |"Amount"| == 6 && |"OriginAddress"| == |"TargetAddress"| == 13;
    assert |"OriginChain"| == |"TargetChain"| == 11;
    assert "OriginAddress"[0] != "TargetAddress"[0] && "OriginChain"[0] != "TargetChain"[0];
  }

  lemma MetaSeen(e: Emitters, f: Family, s: State, m: Message, w: World, k: Key)
    requires IsPayload(f) && RowOk(e, k, CellsOf(s, MakeRowKey(k)))
    requires IsTokenBridge(e, m.key) && m.payload != [] && m.payload[0] == 2 && w.meta.Some?
    ensures StepSeen(e, f, k, CellsOf(s, MakeRowKey(k)), DeliverVaa(m, w), CellsOf(ProcessVaa(e, s, m, w), MakeRowKey(k)))
  {
    var columns := w.meta.value[PAYLOAD_ID := Decimal(m.payload[0])];
    var before := CellsOf(s, MakeRowKey(k));
    var cells := InFamily(AssetMetaPayload, columns);
    GuardedRow(s, m.key, (AssetMetaPayload, PAYLOAD_ID), cells, k);
    if k == m.key && (AssetMetaPayload, PAYLOAD_ID) !in before {
      if f == AssetMetaPayload {
        NoneYet(e, k, before, AssetMetaPayload);
        ColumnsShown(before, AssetMetaPayload, w.meta.value, m.payload, cells);
      } else {
        OtherPart(f, before, cells);
      }
    }
  }

  /** Cells of another family leave this one alone. */
  lemma OtherPart(f: Family, before: Cells, cells: Cells)
    requires (forall x :: (f, x) !in cells) && (RECEIVER in cells ==> RECEIVER !in before)
    ensures SamePart(f, before, before + cells)
  {
  }

  lemma NftSeen(e: Emitters, f: Family, s: State, m: Message, w: World, k: Key)
    requires IsPayload(f) && RowOk(e, k, CellsOf(s, MakeRowKey(k)))
    requires !IsTokenBridge(e, m.key) && ToHex(m.key.address) in e.nfts
    requires m.payload != [] && m.payload[0] == 1 && w.nft.Some? && w.receiver.Some?
    ensures StepSeen(e, f, k, CellsOf(s, MakeRowKey(k)), DeliverVaa(m, w), CellsOf(ProcessVaa(e, s, m, w), MakeRowKey(k)))
  {
    var columns := w.nft.value[PAYLOAD_ID := Decimal(m.payload[0])];
    var cells := InFamily(NftPayload, columns)[RECEIVER := w.receiver.value];
    var before := CellsOf(s, MakeRowKey(k));
    GuardedRow(s, m.key, (NftPayload, PAYLOAD_ID), cells, k);
    if k == m.key && (NftPayload, PAYLOAD_ID) !in before {
      if f == NftPayload {
        NoneYet(e, k, before, NftPayload);
        ColumnsShown(before, NftPayload, w.nft.value, m.payload, cells);
      } else {
        OtherPart(f, before, cells);
      }
    }
  }

  lemma ColumnsShown(before: Cells, f: Family, given: map<string, string>, payload: seq<byte>, cells: Cells)
    requires IsPayload(f) && payload != [] && forall x :: (f, x) !in before
    requires forall x :: (f, x) in cells <==> x in given[PAYLOAD_ID := Decimal(payload[0])]
    requires forall x <- given[PAYLOAD_ID := Decimal(payload[0])] ::
               cells[(f, x)] == given[PAYLOAD_ID := Decimal(payload[0])][x]
    ensures ShowsColumns(before + cells, f, given, payload) && (f, PAYLOAD_ID) in before + cells
  {
    assert forall x :: (f, x) in before + cells <==> (f, x) in cells;
  }

  lemma DetailsSeen(e: Emitters, f: Family, s: State, m: Message, d: Option<Details>, k: Key)
    requires IsPayload(f)
    ensures StepSeen(e, f, k, CellsOf(s, MakeRowKey(k)), DeliverTransfer(m, d), CellsOf(ProcessTransfer(s, m, d), MakeRowKey(k)))
  {
    if m in s.published && d.Some? {
      var cells := InFamily(TransferDetails, DetailColumns(CellsOf(s, MakeRowKey(m.key)), d.value));
      GuardedRow(s, m.key, (TransferDetails, AMOUNT), cells, k);
    }
  }

  lemma OneStepSeen(e: Emitters, f: Family, s: State, a: Action, k: Key)
    requires Inv(e, s) && IsPayload(f)
    ensures StepSeen(e, f, k, CellsOf(s, MakeRowKey(k)), a, CellsOf(Step(e, s, a), MakeRowKey(k)))
  {
    match a
    case DeliverVaa(m, w) => VaaSeen(e, f, s, m, w, k);
    case DeliverTransfer(m, d) => DetailsSeen(e, f, s, m, d, k);
  }

  // ----- payloads, over whole runs -----

  /** The first delivery of the run that can be saved. */
  ghost predicate FirstSaved(e: Emitters, f: Family, k: Key, run: seq<Action>, i: nat) {
    i < |run| && Saves(e, f, k, run[i]) && forall j :: 0 <= j < i ==> !Saves(e, f, k, run[j])
  }

  /** In every run, a row has a payload of a family if and only if some delivery could be
      saved, and then it shows the first such delivery and nothing else. */
  lemma {:induction false} RowShowsFirst(e: Emitters, f: Family, k: Key, run: seq<Action>)
    requires IsPayload(f)
    ensures (f, PAYLOAD_ID) in CellsOf(Run(e, START, run), MakeRowKey(k))
        <==> exists i: nat :: i < |run| && Saves(e, f, k, run[i])
    ensures forall i: nat :: FirstSaved(e, f, k, run, i) ==> Shows(f, CellsOf(Run(e, START, run), MakeRowKey(k)), run[i])
  {
    if run != [] {
      var n := |run| - 1;
      RowShowsFirst(e, f, k, run[..n]);
      RunKeeps(e, run[..n]);
      OneStepSeen(e, f, Run(e, START, run[..n]), run[n], k);
      OneMoreDelivery(e, f, k, run, CellsOf(Run(e, START, run[..n]), MakeRowKey(k)), CellsOf(Run(e, START, run), MakeRowKey(k)));
    }
  }

  lemma OneMoreDelivery(e: Emitters, f: Family, k: Key, run: seq<Action>, before: Cells, after: Cells)
    requires IsPayload(f) && run != [] && StepSeen(e, f, k, before, run[|run| - 1], after)
    requires var init := run[..|run| - 1];
      ((f, PAYLOAD_ID) in before <==> exists i: nat :: i < |init| && Saves(e, f, k, init[i]))
      && forall i: nat :: FirstSaved(e, f, k, init, i) ==> Shows(f, before, init[i])
    ensures (f, PAYLOAD_ID) in after <==> exists i: nat :: i < |run| && Saves(e, f, k, run[i])
    ensures forall i: nat :: FirstSaved(e, f, k, run, i) ==> Shows(f, after, run[i])
  {
    var n := |run| - 1;
    var init := run[..n];
    assert forall i :: 0 <= i < n ==> init[i] == run[i];
    if (f, PAYLOAD_ID) in before {
      var i: nat :| i < n && Saves(e, f, k, init[i]);
      assert Saves(e, f, k, run[i]);
    }
    forall i: nat | FirstSaved(e, f, k, run, i) ensures Shows(f, after, run[i]) {
      if i < n {
        assert FirstSaved(e, f, k, init, i);
        StillShown(f, before, after, run[i]);
      } else {
        assert (f, PAYLOAD_ID) !in before;
      }
    }
  }

  lemma StillShown(f: Family, before: Cells, after: Cells, a: Action)
    requires IsPayload(f) && Shows(f, before, a) && SamePart(f, before, after)
    ensures Shows(f, after, a)
  {
    match f
    case TransferPayload => TransferStillShown(before, after, a.m.payload, a.world);
    case AssetMetaPayload => ColumnsStillShown(f, before, after, a.world.meta.value, a.m.payload);
    case NftPayload => ColumnsStillShown(f, before, after, a.world.nft.value, a.m.payload);
  }

  lemma TransferStillShown(before: Cells, after: Cells, payload: seq<byte>, world: World)
    requires |payload| >= 101 && ShowsTransfer(before, payload, world) && SamePart(TransferPayload, before, after)
    ensures ShowsTransfer(after, payload, world)
  {
  }

  lemma ColumnsStillShown(f: Family, before: Cells, after: Cells, columns: map<string, string>, payload: seq<byte>)
    requires payload != [] && ShowsColumns(before, f, columns, payload) && SamePart(f, before, after)
    ensures ShowsColumns(after, f, columns, payload)
  {
  }

  /** The shared address sends token transfers on every chain but 4, and NFTs there only. */
  lemma SharedAddressByChain(e: Emitters, k: Key, run: seq<Action>)
    requires ToHex(k.address) == e.shared
    ensures var cells := CellsOf(Run(e, START, run), MakeRowKey(k));
      ((TransferPayload, PAYLOAD_ID) in cells ==> k.chain != 4)
      && ((NftPayload, PAYLOAD_ID) in cells && e.shared in e.tokens ==> k.chain == 4)
  {
    RunKeeps(e, run);
    assert RowOk(e, k, CellsOf(Run(e, START, run), MakeRowKey(k)));
  }

  // ----- details, over whole runs -----

  /** The delivery can be saved as details: prices and metadata were found, and the very
      message had been saved, and so handed on, before. */
  ghost predicate SavesDetails(e: Emitters, k: Key, run: seq<Action>, i: nat) {
    i < |run| && run[i].DeliverTransfer? && run[i].details.Some? && run[i].m.key == k
    && exists j: nat :: j < i && Saves(e, TransferPayload, k, run[j]) && run[j].m == run[i].m
  }

  ghost predicate FirstDetails(e: Emitters, k: Key, run: seq<Action>, i: nat) {
    SavesDetails(e, k, run, i) && forall j: nat :: j < i ==> !SavesDetails(e, k, run, j)
  }

  /** The row shows the details: the payload's amount with the point moved by the token's
      decimals, at most eight, these decimals, and the other columns as given. */
  ghost predicate ShowsDetails(cells: Cells, d: Details) {
    Columns(cells, TransferDetails, d.others.Keys + {"Amount", "Decimals"}) && (TransferPayload, "Amount") in cells
    && (var p := Scaled(cells[(TransferPayload, "Amount")], d.decimals);
        cells[(TransferDetails, "Amount")] == p.whole + "." + p.fraction)
    && cells[(TransferDetails, "Decimals")] == Decimal(if d.decimals > 8 then 8 else d.decimals)
    && forall x <- d.others :: x != "Amount" && x != "Decimals" ==> cells[(TransferDetails, x)] == d.others[x]
  }

  /** A message is handed on once it could be saved. */
  lemma {:induction false} HandedOn(e: Emitters, run: seq<Action>, m: Message)
    ensures m in Run(e, START, run).published
        <==> exists j: nat :: j < |run| && Saves(e, TransferPayload, m.key, run[j]) && run[j].m == m
  {
    if run != [] {
      var n := |run| - 1;
      HandedOn(e, run[..n], m);
      HandsOn(e, Run(e, START, run[..n]), run[n], m);
      assert forall j :: 0 <= j < n ==> run[..n][j] == run[j];
      if exists j: nat :: j < n && Saves(e, TransferPayload, m.key, run[j]) && run[j].m == m {
        var j: nat :| j < n && Saves(e, TransferPayload, m.key, run[j]) && run[j].m == m;
        assert run[..n][j] == run[j];
      }
    }
  }

  lemma HandsOn(e: Emitters, s: State, a: Action, m: Message)
    ensures m in Step(e, s, a).published <==> m in s.published || (Saves(e, TransferPayload, m.key, a) && a.m == m)
  {
  }

  /** What a delivery does to a row's details: `saved` says whether it can be saved. */
  ghost predicate DetailsSeenStep(before: Cells, saved: bool, a: Action, after: Cells) {
    if (TransferDetails, AMOUNT) !in before && saved
    then (TransferDetails, AMOUNT) in after && a.DeliverTransfer? && a.details.Some? && ShowsDetails(after, a.details.value)
    else SamePart(TransferDetails, before, after)
  }

  lemma DetailsStep(e: Emitters, s: State, a: Action, k: Key)
    requires Inv(e, s)
    ensures DetailsSeenStep(CellsOf(s, MakeRowKey(k)),
                            a.DeliverTransfer? && a.details.Some? && a.m.key == k && a.m in s.published,
                            a, CellsOf(Step(e, s, a), MakeRowKey(k)))
  {
    match a
    case DeliverVaa(m, w) => VaaLeavesDetails(e, s, m, w, k);
    case DeliverTransfer(m, d) => if m in s.published && d.Some? { TransferDetailsStep(e, s, m, d.value, k); }
  }

  lemma TransferDetailsStep(e: Emitters, s: State, m: Message, d: Details, k: Key)
    requires Inv(e, s) && m in s.published
    ensures DetailsSeenStep(CellsOf(s, MakeRowKey(k)), m.key == k, DeliverTransfer(m, Some(d)),
                            CellsOf(ProcessTransfer(s, m, Some(d)), MakeRowKey(k)))
  {
    var before := CellsOf(s, MakeRowKey(k));
    DetailsWritten(s, m, d, k);
    if m.key == k && (TransferDetails, AMOUNT) !in before {
      assert RowOk(e, k, before);
      NoDetailsYet(e, k, before);
      DetailsShown(before, d, InFamily(TransferDetails, DetailColumns(before, d)));
    }
  }

  lemma DetailsWritten(s: State, m: Message, d: Details, k: Key)
    requires m in s.published
    ensures CellsOf(ProcessTransfer(s, m, Some(d)), MakeRowKey(k))
         == if m.key == k && (TransferDetails, AMOUNT) !in CellsOf(s, MakeRowKey(k))
            then CellsOf(s, MakeRowKey(k)) + InFamily(TransferDetails, DetailColumns(CellsOf(s, MakeRowKey(k)), d))
            else CellsOf(s, MakeRowKey(k))
  {
    var cells := InFamily(TransferDetails, DetailColumns(CellsOf(s, MakeRowKey(m.key)), d));
    GuardedRow(s, m.key, (TransferDetails, AMOUNT), cells, k);
  }

  lemma NoDetailsYet(e: Emitters, k: Key, before: Cells)
    requires RowOk(e, k, before) && (TransferDetails, AMOUNT) !in before
    ensures forall x :: (TransferDetails, x) !in before
  {
    forall x ensures (TransferDetails, x) !in before {
      assert (TransferDetails, x) in before ==> GuardOf((TransferDetails, x).0) in before;
    }
  }

  lemma DetailsShown(before: Cells, d: Details, cells: Cells)
    requires (forall x :: (TransferDetails, x) !in before) && (TransferPayload, AMOUNT) in before
    requires cells == InFamily(TransferDetails, DetailColumns(before, d))
    ensures ShowsDetails(before + cells, d) && (TransferDetails, AMOUNT) in before + cells
  {
    var columns, after := DetailColumns(before, d), before + cells;
    DetailColumnsAre(before, d);
    assert forall x :: (TransferDetails, x) in after <==> x in columns;
    assert forall x <- columns :: after[(TransferDetails, x)] == columns[x];
    assert after[(TransferPayload, "Amount")] == before[(TransferPayload, AMOUNT)];
  }

  lemma DetailColumnsAre(before: Cells, d: Details)
    requires (TransferPayload, AMOUNT) in before
    ensures var columns := DetailColumns(before, d); var p := Scaled(before[(TransferPayload, "Amount")], d.decimals);
      columns.Keys == d.others.Keys + {"Amount", "Decimals"} && columns["Amount"] == p.whole + "." + p.fraction
      && columns["Decimals"] == Decimal(if d.decimals > 8 then 8 else d.decimals)
      && forall x <- d.others :: x != "Amount" && x != "Decimals" ==> columns[x] == d.others[x]
  {
    assert |"Amount"| == 6 && |"Decimals"| == 8;
  }

  lemma VaaLeavesDetails(e: Emitters, s: State, m: Message, w: World, k: Key)
    requires Inv(e, s)
    ensures SamePart(TransferDetails, CellsOf(s, MakeRowKey(k)), CellsOf(ProcessVaa(e, s, m, w), MakeRowKey(k)))
  {
    VaaKeeps(e, s, m, w);
    var before := CellsOf(s, MakeRowKey(k));
    if m.payload != [] {
      if IsTokenBridge(e, m.key) {
        if m.payload[0] == 1 {
          if Decoded(m.payload).Ok? && w.receiver.Some? {
            var cells := InFamily(TransferPayload, TransferColumns(Decoded(m.payload).value, w.rawAmount))[RECEIVER := w.receiver.value];
            TransferWritten(e, s, m, w, cells, k);
          }
        } else if m.payload[0] == 2 && w.meta.Some? {
          GuardedRow(s, m.key, (AssetMetaPayload, PAYLOAD_ID),
                     InFamily(AssetMetaPayload, w.meta.value[PAYLOAD_ID := Decimal(m.payload[0])]), k);
        }
      } else if ToHex(m.key.address) in e.nfts && m.payload[0] == 1 && w.nft.Some? && w.receiver.Some? {
        GuardedRow(s, m.key, (NftPayload, PAYLOAD_ID),
                   InFamily(NftPayload, w.nft.value[PAYLOAD_ID := Decimal(m.payload[0])])[RECEIVER := w.receiver.value], k);
      }
    }
  }

  /** In every run, a row has details if and only if some delivery could be saved as such, and
      then it shows the first such delivery and nothing else. */
  lemma {:induction false} DetailsShowFirst(e: Emitters, k: Key, run: seq<Action>)
    ensures DetailsKnown(e, k, run, CellsOf(Run(e, START, run), MakeRowKey(k)))
    ensures DetailsFirst(e, k, run, CellsOf(Run(e, START, run), MakeRowKey(k)))
  {
    if run != [] {
      var n := |run| - 1;
      var s := Run(e, START, run[..n]);
      DetailsShowFirst(e, k, run[..n]);
      RunKeeps(e, run[..n]);
      DetailsStep(e, s, run[n], k);
      StepKeeps(e, s, run[n]);
      HandedOn(e, run[..n], run[n].m);
      SavesDetailsBefore(e, k, run);
      var before, after := CellsOf(s, MakeRowKey(k)), CellsOf(Step(e, s, run[n]), MakeRowKey(k));
      MoreKnown(e, k, run, before, after);
      MoreFirst(e, k, run, before, after);
    }
  }

  /** Whether a delivery can be saved does not depend on later ones. */
  lemma SavesDetailsBefore(e: Emitters, k: Key, run: seq<Action>)
    requires run != []
    ensures forall i: nat :: i < |run| - 1 ==> (SavesDetails(e, k, run, i) <==> SavesDetails(e, k, run[..|run| - 1], i))
    ensures SavesDetails(e, k, run, |run| - 1) <==>
              var n := |run| - 1;
              run[n].DeliverTransfer? && run[n].details.Some? && run[n].m.key == k
              && exists j: nat :: j < n && Saves(e, TransferPayload, k, run[..n][j]) && run[..n][j].m == run[n].m
  {
    var n := |run| - 1;
    assert forall j :: 0 <= j < n ==> run[..n][j] == run[j];
    forall i: nat | i < n ensures SavesDetails(e, k, run, i) <==> SavesDetails(e, k, run[..n], i) {
      if SavesDetails(e, k, run, i) {
        var j: nat :| j < i && Saves(e, TransferPayload, k, run[j]) && run[j].m == run[i].m;
        assert Saves(e, TransferPayload, k, run[..n][j]) && run[..n][j].m == run[..n][i].m;
      }
      if SavesDetails(e, k, run[..n], i) {
        var j: nat :| j < i && Saves(e, TransferPayload, k, run[..n][j]) && run[..n][j].m == run[..n][i].m;
        assert Saves(e, TransferPayload, k, run[j]) && run[j].m == run[i].m;
      }
    }
    if SavesDetails(e, k, run, n) {
      var j: nat :| j < n && Saves(e, TransferPayload, k, run[j]) && run[j].m == run[n].m;
      assert Saves(e, TransferPayload, k, run[..n][j]);
    }
    if exists j: nat :: j < n && Saves(e, TransferPayload, k, run[..n][j]) && run[..n][j].m == run[n].m {
      var j: nat :| j < n && Saves(e, TransferPayload, k, run[..n][j]) && run[..n][j].m == run[n].m;
      assert Saves(e, TransferPayload, k, run[j]) && run[j].m == run[n].m;
    }
  }

  /** The row has details exactly if some delivery up to now could be saved as such. */
  ghost predicate DetailsKnown(e: Emitters, k: Key, run: seq<Action>, cells: Cells) {
    (TransferDetails, AMOUNT) in cells <==> exists i: nat :: SavesDetails(e, k, run, i)
  }

  ghost predicate DetailsFirst(e: Emitters, k: Key, run: seq<Action>, cells: Cells) {
    forall i: nat :: FirstDetails(e, k, run, i) ==> ShowsDetails(cells, run[i].details.value)
  }

  /** The same deliveries can be saved in the run and in all but its last step. */
  ghost predicate SameSaves(e: Emitters, k: Key, run: seq<Action>) {
    run != [] && forall i: nat :: i < |run| - 1 ==> (SavesDetails(e, k, run, i) <==> SavesDetails(e, k, run[..|run| - 1], i))
  }

  lemma MoreKnown(e: Emitters, k: Key, run: seq<Action>, before: Cells, after: Cells)
    requires SameSaves(e, k, run) && DetailsKnown(e, k, run[..|run| - 1], before)
    requires DetailsSeenStep(before, SavesDetails(e, k, run, |run| - 1), run[|run| - 1], after)
    ensures DetailsKnown(e, k, run, after)
  {
    var n := |run| - 1;
    var init := run[..n];
    if (TransferDetails, AMOUNT) in before {
      var i: nat :| SavesDetails(e, k, init, i);
      assert SavesDetails(e, k, run, i);
    } else if exists i: nat :: SavesDetails(e, k, run, i) {
      var i: nat :| SavesDetails(e, k, run, i);
      assert i < n ==> SavesDetails(e, k, init, i);
    }
  }

  lemma MoreFirst(e: Emitters, k: Key, run: seq<Action>, before: Cells, after: Cells)
    requires SameSaves(e, k, run) && DetailsKnown(e, k, run[..|run| - 1], before) && DetailsFirst(e, k, run[..|run| - 1], before)
    requires DetailsSeenStep(before, SavesDetails(e, k, run, |run| - 1), run[|run| - 1], after)
    requires forall c <- before :: c in after && after[c] == before[c]
    ensures DetailsFirst(e, k, run, after)
  {
    forall i: nat | FirstDetails(e, k, run, i) ensures ShowsDetails(after, run[i].details.value) {
      if i < |run| - 1 {
        FirstBefore(e, k, run, i);
        assert ShowsDetails(before, run[i].details.value);
        DetailsStillShown(before, after, run[i].details.value);
      } else {
        FirstIsLast(e, k, run, before);
      }
    }
  }

  lemma FirstBefore(e: Emitters, k: Key, run: seq<Action>, i: nat)
    requires SameSaves(e, k, run) && FirstDetails(e, k, run, i) && i < |run| - 1
    ensures FirstDetails(e, k, run[..|run| - 1], i) && run[..|run| - 1][i] == run[i]
    ensures SavesDetails(e, k, run[..|run| - 1], i)
  {
    var init := run[..|run| - 1];
    forall j: nat | j < i ensures !SavesDetails(e, k, init, j) {
      assert SavesDetails(e, k, run, j) <==> SavesDetails(e, k, init, j);
    }
    assert SavesDetails(e, k, run, i) <==> SavesDetails(e, k, init, i);
  }

  lemma FirstIsLast(e: Emitters, k: Key, run: seq<Action>, before: Cells)
    requires SameSaves(e, k, run) && DetailsKnown(e, k, run[..|run| - 1], before)
    requires FirstDetails(e, k, run, |run| - 1)
    ensures (TransferDetails, AMOUNT) !in before
  {
    var init := run[..|run| - 1];
    forall j: nat ensures !SavesDetails(e, k, init, j) {
      assert j < |run| - 1 ==> (SavesDetails(e, k, run, j) <==> SavesDetails(e, k, init, j));
    }
  }

  lemma DetailsStillShown(before: Cells, after: Cells, d: Details)
    requires ShowsDetails(before, d) && SamePart(TransferDetails, before, after)
    requires forall c <- before :: c in after && after[c] == before[c]
    ensures ShowsDetails(after, d)
  {
  }

  // ----- from the signed payload to the details -----

  /** Guardians sign one payload per key, so all deliveries for a key carry that payload. */
  ghost predicate Signed(signed: Key -> seq<byte>, run: seq<Action>) {
    forall i :: 0 <= i < |run| && run[i].DeliverVaa? ==> run[i].m.payload == signed(run[i].m.key)
  }

  /** The whole pipeline: in every run, when a row's signed payload carries an amount below
      2^64, the first delivery that could be saved as details decides what they show: the
      token's decimals, at most eight, and a number that denotes the signed amount over
      10^decimals. */
  lemma DetailsDenoteSignedAmount(
    e: Emitters, signed: Key -> seq<byte>, run: seq<Action>, k: Key, i: nat,
    id: byte, amount: nat, origin: seq<byte>, originChain: nat, target: seq<byte>, targetChain: nat, extra: seq<byte>)
    returns (p: Parts)
    requires Signed(signed, run) && FirstDetails(e, k, run, i)
    requires amount < WORD && |origin| == 32 && |target| == 32
    requires originChain < Pow(256, 2) && targetChain < Pow(256, 2)
    requires signed(k) == Payload(id, amount, origin, originChain, target, targetChain) + extra
    ensures var cells := CellsOf(Run(e, START, run), MakeRowKey(k)); var d := Min(run[i].details.value.decimals, 8);
      (TransferDetails, "Decimals") in cells && cells[(TransferDetails, "Decimals")] == Decimal(d)
      && (TransferDetails, "Amount") in cells && cells[(TransferDetails, "Amount")] == p.whole + "." + p.fraction
      && Pow(10, d) > 0 && Denotes(p) == amount as real / Pow(10, d) as real
  {
    DetailsShowFirst(e, k, run);
    var j: nat :| j < i && Saves(e, TransferPayload, k, run[j]) && run[j].m == run[i].m;
    var f := FindFirst(e, TransferPayload, k, run, j);
    RowShowsFirst(e, TransferPayload, k, run);
    var cells := CellsOf(Run(e, START, run), MakeRowKey(k));
    var payload := signed(k);
    assert run[f].m.payload == payload && ShowsTransfer(cells, payload, run[f].world);
    EndToEnd(id, amount, origin, originChain, target, targetChain, extra, run[i].details.value.decimals);
    var t := Decoded(payload).value;
    assert t.limbs[2] == Value(256, payload[17..25]) && t.limbs[3] == Value(256, payload[25..33]);
    p := Scaled(cells[(TransferPayload, "Amount")], run[i].details.value.decimals);
    assert cells[(TransferPayload, "Amount")] == StoredAmount(t);
  }

  lemma {:induction false} FindFirst(e: Emitters, f: Family, k: Key, run: seq<Action>, j: nat) returns (i: nat)
    requires j < |run| && Saves(e, f, k, run[j])
    ensures FirstSaved(e, f, k, run, i)
    decreases j
  {
    if h: nat :| h < j && Saves(e, f, k, run[h]) {
      i := FindFirst(e, f, k, run, h);
    } else {
      i := j;
    }
  }

  /** So a row with details has its payload, saved by an earlier delivery. */
  lemma DetailsFollowPayload(e: Emitters, run: seq<Action>, k: Key)
    requires (TransferDetails, AMOUNT) in CellsOf(Run(e, START, run), MakeRowKey(k))
    ensures (TransferPayload, PAYLOAD_ID) in CellsOf(Run(e, START, run), MakeRowKey(k))
    ensures exists i: nat, j: nat :: SavesDetails(e, k, run, i) && j < i && Saves(e, TransferPayload, k, run[j])
  {
    DetailsShowFirst(e, k, run);
    var i: nat :| SavesDetails(e, k, run, i);
    var j: nat :| j < i && Saves(e, TransferPayload, k, run[j]) && run[j].m == run[i].m;
    RowShowsFirst(e, TransferPayload, k, run);
  }
}
